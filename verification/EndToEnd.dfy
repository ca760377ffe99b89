/**
 * From a streamed action on the server to the console in the browser: what any
 * of the calls interleaved over the lock set hands its viewer, received by a
 * fresh run of the command runner. The event stream between them carries each
 * event as one message and any ending as the end of the connection
 * (`backend/src/actions/actions.controller.ts:47-71`).
 */
module EndToEnd {
  import opened Wrappers
  import opened ActionLock
  import opened CallHistory
  import opened ConsoleOutput
  import opened SshSession
  import opened StreamedCall
  import opened ConsoleTheorems
  import CommandRunner

  /** The console of a viewer who started a command after any events, and was handed these notes. */
  function Shown(events: seq<CommandRunner.Event>, command: string, seen: seq<Note<CallError>>): CommandRunner.Console {
    CommandRunner.Receive(CommandRunner.Ran(events + [CommandRunner.Start(command)]), CommandRunner.Starts(events), seen)
  }

  lemma StartedIsLive(events: seq<CommandRunner.Event>, command: string)
    ensures var console := CommandRunner.Ran(events + [CommandRunner.Start(command)]);
            CommandRunner.Live(console, CommandRunner.Starts(events)) && console.lines == []
  {
    CommandRunner.RunsAreCoherent(events);
    CommandRunner.OneSourcePerStart(events);
    assert (events + [CommandRunner.Start(command)])[..|events|] == events;
    CommandRunner.StartIsLive(CommandRunner.Ran(events), command);
  }

  /** What a session printed before anything settled it. */
  function PrintedBy(limited: bool, events: seq<SshEvent>): seq<Chunk>
    decreases |events|
  {
    if events == [] then []
    else
      var n := |events| - 1;
      PrintedBy(limited, events[..n])
      + if events[n].Data? && CallHistory.Going(limited, events[..n]) then [Chunk(events[n].text, events[n].stream)] else []
  }

  /** What one event settles, as the console can show it: an exit code, or that the connection broke. */
  function EndingOf(limited: bool, e: SshEvent): CommandRunner.Ending {
    match e
    case ChannelCloses(None) => CommandRunner.Exited(0)
    case ChannelCloses(Some(code)) => CommandRunner.Exited(code)
    case ExecFails(_) => CommandRunner.Broken
    case ClientFails(_) => CommandRunner.Broken
    case TimerFires => if limited then CommandRunner.Broken else CommandRunner.Going
    case Data(_, _) => CommandRunner.Going
    case Unsubscribed => CommandRunner.Going
  }

  /** What settled the session, if anything did: the first event it does not go on after. */
  function EndedBy(limited: bool, events: seq<SshEvent>): CommandRunner.Ending
    decreases |events|
  {
    if events == [] then CommandRunner.Going
    else
      var n := |events| - 1;
      if CallHistory.Going(limited, events[..n]) then EndingOf(limited, events[n]) else EndedBy(limited, events[..n])
  }

  lemma {:induction false} ChunksJoin(earlier: seq<Note<CallError>>, later: seq<Note<CallError>>)
    ensures CommandRunner.Chunks(earlier + later) == CommandRunner.Chunks(earlier) + CommandRunner.Chunks(later)
    decreases |later|
  {
    if later == [] {
      assert earlier + later == earlier;
    } else {
      var n := |later| - 1;
      ChunksJoin(earlier, later[..n]);
      assert (earlier + later)[..|earlier| + n] == earlier + later[..n];
    }
  }

  lemma LastWordsChunks(limited: bool, e: SshEvent)
    ensures CommandRunner.Chunks(LastWords(limited, e)) == if e.Data? then [Chunk(e.text, e.stream)] else []
  {
    var words := LastWords(limited, e);
    if |words| == 2 {
      assert words[..1][..0] == [];
      assert CommandRunner.Chunks(words[..1]) == [];
    } else if |words| == 1 {
      assert words[..0] == [];
      assert CommandRunner.Chunks<CallError>([]) == [];
    }
  }

  lemma LastWordsEnd(limited: bool, seen: seq<Note<CallError>>, e: SshEvent)
    requires CommandRunner.EndOf(seen) == CommandRunner.Going
    ensures CommandRunner.EndOf(seen + LastWords(limited, e)) == EndingOf(limited, e)
  {
    var words := LastWords(limited, e);
    if words == [] {
      assert seen + words == seen;
    } else if |words| == 2 {
      assert (seen + words)[|seen|] == words[0] && (seen + words)[|seen| + 1] == words[1];
    } else {
      assert (seen + words)[|seen|] == words[0];
    }
  }

  lemma {:induction false} GoingHasNoEnd(limited: bool, events: seq<SshEvent>)
    requires CallHistory.Going(limited, events)
    ensures EndedBy(limited, events) == CommandRunner.Going
    decreases |events|
  {
    if events != [] {
      GoingHasNoEnd(limited, events[..|events| - 1]);
    }
  }

  lemma OneMoreHanded(limited: bool, before: seq<SshEvent>, e: SshEvent)
    requires CallHistory.Going(limited, before)
    requires CommandRunner.EndOf(Handed(Observed(limited, before))) == CommandRunner.Going
    ensures var seen := Handed(Observed(limited, before + [e]));
            && CommandRunner.Chunks(seen)
               == CommandRunner.Chunks(Handed(Observed(limited, before))) + (if e.Data? then [Chunk(e.text, e.stream)] else [])
            && CommandRunner.EndOf(seen) == EndingOf(limited, e)
  {
    var seen := Handed(Observed(limited, before));
    HandedGrows(limited, before, e);
    ChunksJoin(seen, LastWords(limited, e));
    LastWordsChunks(limited, e);
    LastWordsEnd(limited, seen, e);
  }

  /** What the viewer is handed holds what was printed and how it ended. */
  lemma {:induction false} HandedTellsAll(limited: bool, events: seq<SshEvent>)
    ensures var seen := Handed(Observed(limited, events));
            CommandRunner.Chunks(seen) == PrintedBy(limited, events) && CommandRunner.EndOf(seen) == EndedBy(limited, events)
    decreases |events|
  {
    if events != [] {
      var n := |events| - 1;
      var before, e := events[..n], events[n];
      HandedTellsAll(limited, before);
      assert events == before + [e];
      if CallHistory.Going(limited, before) {
        GoingHasNoEnd(limited, before);
        OneMoreHanded(limited, before, e);
      } else {
        SettledSaysNoMore(limited, before, e);
      }
    }
  }

  lemma SettledSaysNoMore(limited: bool, before: seq<SshEvent>, e: SshEvent)
    requires !CallHistory.Going(limited, before)
    ensures Observed(limited, before + [e]) == Observed(limited, before)
  {
    ObservedSnoc(limited, before, e);
    assert Observed(limited, before) + [] == Observed(limited, before);
  }

  function PrintedIn(life: Life): seq<Chunk> {
    if life.Streaming? then PrintedBy(Limited(life.request), life.events) else []
  }

  /** A refusal reaches the browser as a connection that broke. */
  function EndedIn(life: Life): CommandRunner.Ending {
    match life
    case Streaming(_, request, events) => EndedBy(Limited(request), events)
    case Refused(_, _, _) => CommandRunner.Broken
    case _ => CommandRunner.Going
  }

  lemma LifeIsSeen(life: Life)
    ensures CommandRunner.Chunks(SeenIn(life)) == PrintedIn(life) && CommandRunner.EndOf(SeenIn(life)) == EndedIn(life)
  {
    if life.Streaming? {
      HandedTellsAll(Limited(life.request), life.events);
    }
  }

  /**
   * In every interleaving of every action, each viewer's console shows exactly
   * what its own SSH session printed from the turn that granted the action until
   * something settled it, folded, and running, done, failed or dropped as that
   * something says; a refused one shows nothing printed and dropped.
   */
  lemma ActionToScreen(mode: Rejections, turns: seq<Turn>, id: nat, events: seq<CommandRunner.Event>, command: string)
    requires id in Run(mode, IDLE, turns).actors && Run(mode, IDLE, turns).actors[id].Call?
    ensures var life := LifeOf(mode, turns, id);
            var console := Shown(events, command, Run(mode, IDLE, turns).actors[id].state.seen);
            console.lines == FoldChunks([], PrintedIn(life)) && CommandRunner.ShowsEnd(console, EndedIn(life))
  {
    var seen := Run(mode, IDLE, turns).actors[id].state.seen;
    SeenToScreen(mode, turns, id, events, command);
    RunIsTold(mode, turns);
    assert Agrees(Run(mode, IDLE, turns), id, LifeOf(mode, turns, id));
    LifeIsSeen(LifeOf(mode, turns, id));
  }

  /** Nothing is lost between what the viewer is handed and the screen. */
  lemma SeenToScreen(mode: Rejections, turns: seq<Turn>, id: nat, events: seq<CommandRunner.Event>, command: string)
    requires id in Run(mode, IDLE, turns).actors && Run(mode, IDLE, turns).actors[id].Call?
    ensures var seen := Run(mode, IDLE, turns).actors[id].state.seen;
            var console := Shown(events, command, seen);
            && console.lines == FoldChunks([], CommandRunner.Chunks(seen))
            && CommandRunner.ShowsEnd(console, CommandRunner.EndOf(seen))
  {
    AuditedOnce(mode, turns, id);
    StartedIsLive(events, command);
    var console := CommandRunner.Ran(events + [CommandRunner.Start(command)]);
    CommandRunner.ScreenFollowsServer(console, CommandRunner.Starts(events), Run(mode, IDLE, turns).actors[id].state.seen);
  }

  lemma DoneIsExitZero(console: CommandRunner.Console, seen: seq<Note<CallError>>)
    requires CommandRunner.ShowsEnd(console, CommandRunner.EndOf(seen)) && WellShaped(seen)
    ensures console.state == CommandRunner.Done <==> SawExitZero(seen)
  {
  }

  /** And for a mutating action it says done exactly when the audit trail says it succeeded. */
  lemma ScreenAgreesWithAudit(mode: Rejections, turns: seq<Turn>, id: nat, events: seq<CommandRunner.Event>, command: string)
    requires id in Run(mode, IDLE, turns).actors && Run(mode, IDLE, turns).actors[id].Call?
    requires Mutating(Run(mode, IDLE, turns).actors[id].state.request)
    ensures var c := Run(mode, IDLE, turns).actors[id].state;
            Shown(events, command, c.seen).state == CommandRunner.Done <==> |c.audit| == 1 && c.audit[0].succeeded
  {
    var c := Run(mode, IDLE, turns).actors[id].state;
    SeenToScreen(mode, turns, id, events, command);
    AuditedOnce(mode, turns, id);
    DoneIsExitZero(Shown(events, command, c.seen), c.seen);
  }

  /** A call the end of the process cut short shows what was printed, and a dropped connection. */
  lemma CutShowsAsDropped(c: CallState, after: CallState, events: seq<CommandRunner.Event>, command: string)
    requires CutShort(c, after)
    ensures var console := CommandRunner.RunnerStep(Shown(events, command, after.seen), CommandRunner.Drop(CommandRunner.Starts(events)));
            && console.lines == FoldChunks([], CommandRunner.Chunks(c.seen))
            && CommandRunner.ShowsEnd(console, CommandRunner.Broken)
  {
    var console, source := CommandRunner.Ran(events + [CommandRunner.Start(command)]), CommandRunner.Starts(events);
    StartedIsLive(events, command);
    CommandRunner.OutputsArrive(console, source, c.seen);
    CommandRunner.DropArrives(console.(lines := FoldChunks([], CommandRunner.Chunks(c.seen))), source);
  }
}
