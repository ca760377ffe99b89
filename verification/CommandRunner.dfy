/**
 * The panel's console for one command: `commandRunner`
 * (`frontend/src/app/shared/command-runner.ts`) over the `EventSource` protocol
 * of `ActionsService.stream` (`frontend/src/app/core/services/actions.service.ts`).
 *
 * Taken from section 9.2 of the WHATWG HTML Standard: a source that was closed
 * fires nothing more, not even an event already queued.
 */
module CommandRunner {
  import opened Wrappers
  import opened ConsoleOutput
  import opened ConsoleTheorems
  import SshSession

  datatype RunState = Idle | Running | Done | Failed

  datatype Source = Source(open: bool, finished: bool)

  /** The signals, the handle and every source ever opened; the handle is a source's number. */
  datatype Console = Console(
    lines: seq<Line>, state: RunState, exitCode: Option<int>, error: Option<string>, command: Option<string>,
    handle: Option<nat>, sources: seq<Source>)

  /** A message that is not JSON has no data. */
  datatype Event =
    | Start(command: string)
    | Stop
    | Clear
    | Message(source: nat, data: Option<SshSession.CommandEvent>)
    | Drop(source: nat)

  const FRESH := Console([], Idle, None, None, None, None, [])

  const OPEN := Source(true, false)
  const CLOSED := Source(false, true)

  const DROPPED := "The connection to the server dropped. Check the server logs for why."

  function CloseHandle(sources: seq<Source>, handle: Option<nat>): seq<Source> {
    if handle.Some? && handle.value < |sources| then sources[handle.value := CLOSED] else sources
  }

  predicate Hears(c: Console, source: nat) {
    source < |c.sources| && c.sources[source].open
  }

  function RunnerStep(c: Console, e: Event): Console {
    match e
    case Start(command) =>
      var sources := CloseHandle(c.sources, c.handle) + [OPEN];
      Console([], Running, None, None, Some(command), Some(|sources| - 1), sources)
    case Stop =>
      c.(sources := CloseHandle(c.sources, c.handle), handle := None, state := if c.state == Running then Done else c.state)
    case Clear =>
      c.(lines := [], exitCode := None, error := None, state := if c.state == Running then Running else Idle)
    case Message(source, data) =>
      if !Hears(c, source) || data == None then c
      else (
        match data.value
        case Output(text, stream) => c.(lines := Appended(c.lines, text, stream))
        case Exit(code) =>
          c.(exitCode := Some(code), state := if code == 0 then Done else Failed, handle := None,
             sources := c.sources[source := CLOSED]))
    case Drop(source) =>
      if !Hears(c, source) || c.sources[source].finished then c
      else c.(sources := c.sources[source := CLOSED], error := Some(DROPPED), state := Failed, handle := None)
  }

  // ---------------------------------------------------------------------------
  // The object.

  class Runner {
    var lines: seq<Line>
    var state: RunState
    var exitCode: Option<int>
    var error: Option<string>
    var command: Option<string>
    var handle: Option<nat>
    var sources: seq<Source>

    function View(): Console
      reads this
    {
      Console(lines, state, exitCode, error, command, handle, sources)
    }

    constructor ()
      ensures View() == FRESH
    {
      lines, state, exitCode, error, command, handle, sources := [], Idle, None, None, None, None, [];
    }

    /** `close`, the handle's `stop`. */
    method CloseSource(source: nat)
      requires source < |sources|
      modifies this`sources
      ensures sources == old(sources)[source := CLOSED]
    {
      sources := sources[source := sources[source].(finished := true)];
      sources := sources[source := sources[source].(open := false)];
    }

    method Stop()
      requires handle.Some? ==> handle.value < |sources|
      modifies this
      ensures View() == RunnerStep(old(View()), Event.Stop)
    {
      if handle.Some? {
        CloseSource(handle.value);
      }
      handle := None;
      if state == Running {
        state := Done;
      }
    }

    method Clear()
      modifies this
      ensures View() == RunnerStep(old(View()), Event.Clear)
    {
      lines, exitCode, error := [], None, None;
      if state != Running {
        state := Idle;
      }
    }

    method Start(name: string)
      requires handle.Some? ==> handle.value < |sources|
      modifies this
      ensures View() == RunnerStep(old(View()), Event.Start(name))
    {
      if handle.Some? {
        CloseSource(handle.value);
      }
      lines, exitCode, error := [], None, None;
      state := Running;
      command := Some(name);
      sources := sources + [OPEN];
      handle := Some(|sources| - 1);
    }

    /** `onmessage`, which the browser calls for open sources only. */
    method OnMessage(source: nat, data: Option<SshSession.CommandEvent>)
      requires Hears(View(), source)
      modifies this
      ensures View() == RunnerStep(old(View()), Message(source, data))
    {
      if data.None? {
        return;
      }
      match data.value {
        case Output(text, stream) =>
          lines := AppendChunk(lines, text, stream);
        case Exit(code) =>
          exitCode := Some(code);
          state := if code == 0 then Done else Failed;
          handle := None;
          CloseSource(source);
      }
    }

    /** `onerror`. */
    method OnError(source: nat)
      requires Hears(View(), source)
      modifies this
      ensures View() == RunnerStep(old(View()), Drop(source))
    {
      if sources[source].finished {
        return;
      }
      CloseSource(source);
      error := Some(DROPPED);
      state := Failed;
      handle := None;
    }
  }

  // ---------------------------------------------------------------------------
  // Every run.

  function Ran(events: seq<Event>): Console
    decreases |events|
  {
    if events == [] then FRESH
    else
      var n := |events| - 1;
      RunnerStep(Ran(events[..n]), events[n])
  }

  /** A source is open exactly when it is the handle's. */
  predicate OnlyHandleOpen(c: Console) {
    && (c.handle.Some? ==> c.handle.value < |c.sources|)
    && forall i :: 0 <= i < |c.sources| ==> c.sources[i] == if c.handle == Some(i) then OPEN else CLOSED
  }

  /** Running is having a handle, and then exactly that source is open. */
  predicate Coherent(c: Console) {
    (c.state == Running <==> c.handle.Some?) && OnlyHandleOpen(c)
  }

  lemma StepKeepsCoherence(c: Console, e: Event)
    requires Coherent(c)
    ensures Coherent(RunnerStep(c, e))
  {
  }

  lemma {:induction false} RunsAreCoherent(events: seq<Event>)
    ensures Coherent(Ran(events))
    decreases |events|
  {
    if events != [] {
      var n := |events| - 1;
      RunsAreCoherent(events[..n]);
      StepKeepsCoherence(Ran(events[..n]), events[n]);
    }
  }

  function Starts(events: seq<Event>): nat
    decreases |events|
  {
    if events == [] then 0
    else
      var n := |events| - 1;
      Starts(events[..n]) + if events[n].Start? then 1 else 0
  }

  /** Each start opens one source, and nothing else does: a command is never run again by a reconnection. */
  lemma {:induction false} OneSourcePerStart(events: seq<Event>)
    ensures |Ran(events).sources| == Starts(events)
    decreases |events|
  {
    if events != [] {
      OneSourcePerStart(events[..|events| - 1]);
    }
  }

  /** What the signals say together. */
  predicate Settled(c: Console) {
    && (c.state == Failed <==> c.error.Some? || (c.exitCode.Some? && c.exitCode.value != 0))
    && (c.exitCode == Some(0) ==> c.state == Done)
    && (c.exitCode.Some? ==> c.error == None)
    && (c.state == Idle ==> c.lines == [] && c.exitCode == None && c.error == None)
    && (c.state == Running ==> c.exitCode == None && c.error == None)
  }

  /** Exit code 0 means done, any other failed; a failure always has one or an error, and never both. */
  lemma {:induction false} RunsAreSettled(events: seq<Event>)
    ensures Settled(Ran(events))
    decreases |events|
  {
    if events != [] {
      var n := |events| - 1;
      RunsAreSettled(events[..n]);
      RunsAreCoherent(events[..n]);
      StepSettles(Ran(events[..n]), events[n]);
    }
  }

  lemma StepSettles(c: Console, e: Event)
    requires Coherent(c) && Settled(c)
    ensures Settled(RunnerStep(c, e))
  {
  }

  /** The run whose events count now, told from the events alone: the last start, until it ends. */
  function Current(events: seq<Event>): Option<nat>
    decreases |events|
  {
    if events == [] then None
    else
      var n := |events| - 1;
      CurrentAfter(Current(events[..n]), Starts(events[..n]), events[n])
  }

  /** What one event makes of it, `starts` being how many there were. */
  function CurrentAfter(before: Option<nat>, starts: nat, e: Event): Option<nat> {
    match e
    case Start(_) => Some(starts)
    case Stop => None
    case Clear => before
    case Message(source, data) => if data.Some? && data.value.Exit? && before == Some(source) then None else before
    case Drop(source) => if before == Some(source) then None else before
  }

  lemma StepHandle(c: Console, e: Event)
    requires Coherent(c)
    ensures RunnerStep(c, e).handle == CurrentAfter(c.handle, |c.sources|, e)
  {
    assert |CloseHandle(c.sources, c.handle)| == |c.sources|;
  }

  function Printing(chunks: seq<Chunk>, current: Option<nat>, e: Event): seq<Chunk> {
    match e
    case Start(_) => []
    case Clear => []
    case Message(source, data) =>
      if data.Some? && data.value.Output? && current == Some(source)
      then chunks + [Chunk(data.value.text, data.value.stream)] else chunks
    case Stop => chunks
    case Drop(_) => chunks
  }

  /** What the current run has printed since it started, or since the console was cleared. */
  function Printed(events: seq<Event>): seq<Chunk>
    decreases |events|
  {
    if events == [] then []
    else
      var n := |events| - 1;
      Printing(Printed(events[..n]), Current(events[..n]), events[n])
  }

  lemma OneMoreChunk(lines: seq<Line>, chunks: seq<Chunk>, chunk: Chunk)
    ensures FoldChunks(lines, chunks + [chunk]) == Appended(FoldChunks(lines, chunks), chunk.text, chunk.stream)
  {
    assert (chunks + [chunk])[..|chunks|] == chunks;
  }

  lemma StepPrints(c: Console, chunks: seq<Chunk>, e: Event)
    requires Coherent(c) && c.lines == FoldChunks([], chunks)
    ensures RunnerStep(c, e).lines == FoldChunks([], Printing(chunks, c.handle, e))
  {
    if e.Message? && e.data.Some? && e.data.value.Output? && c.handle == Some(e.source) {
      OneMoreChunk([], chunks, Chunk(e.data.value.text, e.data.value.stream));
    }
  }

  lemma {:induction false} HandleIsCurrent(events: seq<Event>)
    ensures Ran(events).handle == Current(events)
    decreases |events|
  {
    if events != [] {
      var n := |events| - 1;
      HandleIsCurrent(events[..n]);
      RunsAreCoherent(events[..n]);
      OneSourcePerStart(events[..n]);
      StepHandle(Ran(events[..n]), events[n]);
    }
  }

  /** The screen is what the current run printed, and nothing an earlier connection sent. */
  lemma {:induction false} LinesAreTheCurrentRun(events: seq<Event>)
    ensures Ran(events).lines == FoldChunks([], Printed(events))
    decreases |events|
  {
    if events != [] {
      var n := |events| - 1;
      LinesAreTheCurrentRun(events[..n]);
      HandleIsCurrent(events[..n]);
      RunsAreCoherent(events[..n]);
      StepPrints(Ran(events[..n]), Printed(events[..n]), events[n]);
    }
  }

  /** How the last start stands, as far as the console still tells. */
  datatype Outcome = Untold | Underway | Stopped | ExitedWith(code: int) | Dropped

  /** Told from the events alone: what ended the last start, unless the console was cleared since. */
  function OutcomeOf(events: seq<Event>): Outcome
    decreases |events|
  {
    if events == [] then Untold
    else
      var n := |events| - 1;
      var before, current := OutcomeOf(events[..n]), Current(events[..n]);
      match events[n]
      case Start(_) => Underway
      case Stop => if before == Underway then Stopped else before
      case Clear => if before == Underway then Underway else Untold
      case Message(source, data) =>
        if current == Some(source) && data.Some? && data.value.Exit? then ExitedWith(data.value.code) else before
      case Drop(source) => if current == Some(source) then Dropped else before
  }

  function LastStarted(events: seq<Event>): Option<string>
    decreases |events|
  {
    if events == [] then None
    else if events[|events| - 1].Start? then Some(events[|events| - 1].command)
    else LastStarted(events[..|events| - 1])
  }

  /** The three signals say how it stands. */
  predicate Says(c: Console, outcome: Outcome) {
    match outcome
    case Untold => c.state == Idle && c.exitCode == None && c.error == None
    case Underway => c.state == Running && c.exitCode == None && c.error == None
    case Stopped => c.state == Done && c.exitCode == None && c.error == None
    case ExitedWith(code) => c.state == (if code == 0 then Done else Failed) && c.exitCode == Some(code) && c.error == None
    case Dropped => c.state == Failed && c.exitCode == None && c.error == Some(DROPPED)
  }

  lemma StepSays(c: Console, e: Event, outcome: Outcome)
    requires Coherent(c) && Says(c, outcome)
    ensures Says(RunnerStep(c, e),
                 match e {
                   case Start(_) => Underway
                   case Stop => if outcome == Underway then Stopped else outcome
                   case Clear => if outcome == Underway then Underway else Untold
                   case Message(source, data) =>
                     if c.handle == Some(source) && data.Some? && data.value.Exit? then ExitedWith(data.value.code) else outcome
                   case Drop(source) => if c.handle == Some(source) then Dropped else outcome
                 })
  {
  }

  /** After any events the console names the last command started and says how it stands. */
  lemma {:induction false} SignalsTellTheRun(events: seq<Event>)
    ensures Says(Ran(events), OutcomeOf(events)) && Ran(events).command == LastStarted(events)
    decreases |events|
  {
    if events != [] {
      var n := |events| - 1;
      SignalsTellTheRun(events[..n]);
      RunsAreCoherent(events[..n]);
      HandleIsCurrent(events[..n]);
      StepSays(Ran(events[..n]), events[n], OutcomeOf(events[..n]));
    }
  }

  /** An event of any other connection changes nothing at all. */
  lemma StaleEventsAreInvisible(events: seq<Event>, e: Event)
    requires (e.Message? || e.Drop?) && Current(events) != Some(e.source)
    ensures Ran(events + [e]) == Ran(events)
  {
    assert (events + [e])[..|events|] == events;
    HandleIsCurrent(events);
    RunsAreCoherent(events);
  }

  // ---------------------------------------------------------------------------
  // From the server's stream to the screen.

  /** How what the server's observer is handed reaches the browser: an error or the end drops the connection. */
  function EventOf<E>(note: SshSession.Note<E>, source: nat): Event {
    match note
    case Next(event) => Message(source, Some(event))
    case Failed(_) => Drop(source)
    case Completed => Drop(source)
  }

  function Receive<E>(c: Console, source: nat, notes: seq<SshSession.Note<E>>): Console
    decreases |notes|
  {
    if notes == [] then c
    else
      var n := |notes| - 1;
      RunnerStep(Receive(c, source, notes[..n]), EventOf(notes[n], source))
  }

  function Chunks<E>(notes: seq<SshSession.Note<E>>): seq<Chunk>
    decreases |notes|
  {
    if notes == [] then []
    else
      var n := |notes| - 1;
      if notes[n].Next? && notes[n].event.Output?
      then Chunks(notes[..n]) + [Chunk(notes[n].event.text, notes[n].event.stream)]
      else Chunks(notes[..n])
  }

  /** A console with its one connection open and nothing decided. */
  predicate Live(c: Console, source: nat) {
    c.state == Running && c.handle == Some(source) && Hears(c, source) && !c.sources[source].finished
    && c.error == None && c.exitCode == None
  }

  lemma {:induction false} OutputsArrive<E>(c: Console, source: nat, notes: seq<SshSession.Note<E>>)
    requires SshSession.OutputOnly(notes) && Live(c, source)
    ensures Receive(c, source, notes) == c.(lines := FoldChunks(c.lines, Chunks(notes)))
    decreases |notes|
  {
    if notes != [] {
      var n := |notes| - 1;
      OutputsArrive(c, source, notes[..n]);
      assert notes[n].Next? && notes[n].event.Output?;
      OneMoreChunk(c.lines, Chunks(notes[..n]), Chunk(notes[n].event.text, notes[n].event.stream));
    }
  }

  /** What the server's stream ended with, if it ended: an exit code, or an error. */
  datatype Ending = Going | Broken | Exited(code: int)

  function EndOf<E>(notes: seq<SshSession.Note<E>>): Ending {
    var n := |notes|;
    if n > 0 && notes[n - 1].Failed? then Broken
    else if n > 1 && notes[n - 1].Completed? && SshSession.IsExit(notes[n - 2]) then Exited(notes[n - 2].event.code)
    else Going
  }

  /** How a console shows an ending; once there is one, no connection is left open. */
  predicate ShowsEnd(c: Console, ending: Ending) {
    match ending
    case Going => c.state == Running && c.handle.Some?
    case Broken => c.state == Failed && c.error == Some(DROPPED) && c.exitCode == None && c.handle == None
    case Exited(code) =>
      c.state == (if code == 0 then Done else Failed) && c.error == None && c.exitCode == Some(code) && c.handle == None
  }

  /** The last two events of a stream that exits: the code, then the disconnection, which changes nothing. */
  lemma ExitArrives(c: Console, source: nat, code: int)
    requires Live(c, source)
    ensures var exited := RunnerStep(c, Message(source, Some(SshSession.Exit(code))));
            RunnerStep(exited, Drop(source)) == exited && ShowsEnd(exited, Exited(code)) && exited.lines == c.lines
  {
  }

  lemma DropArrives(c: Console, source: nat)
    requires Live(c, source)
    ensures var dropped := RunnerStep(c, Drop(source)); ShowsEnd(dropped, Broken) && dropped.lines == c.lines
  {
  }

  lemma StartIsLive(c: Console, command: string)
    requires Coherent(c)
    ensures Live(RunnerStep(c, Start(command)), |c.sources|) && RunnerStep(c, Start(command)).lines == []
  {
    assert |CloseHandle(c.sources, c.handle)| == |c.sources|;
  }

  lemma ReceiveExit<E>(c: Console, source: nat, notes: seq<SshSession.Note<E>>)
    requires Live(c, source) && |notes| > 1 && notes[|notes| - 1].Completed? && SshSession.IsExit(notes[|notes| - 2])
    requires SshSession.OutputOnly(notes[..|notes| - 2])
    ensures Receive(c, source, notes).lines == FoldChunks(c.lines, Chunks(notes))
    ensures ShowsEnd(Receive(c, source, notes), EndOf(notes))
  {
    var n := |notes|;
    var most, body := notes[..n - 1], notes[..n - 2];
    assert most[..n - 2] == body && most[n - 2] == notes[n - 2];
    OutputsArrive(c, source, body);
    ExitArrives(c.(lines := FoldChunks(c.lines, Chunks(body))), source, notes[n - 2].event.code);
  }

  lemma ReceiveError<E>(c: Console, source: nat, notes: seq<SshSession.Note<E>>)
    requires Live(c, source) && |notes| > 0 && notes[|notes| - 1].Failed? && SshSession.OutputOnly(notes[..|notes| - 1])
    ensures Receive(c, source, notes).lines == FoldChunks(c.lines, Chunks(notes))
    ensures ShowsEnd(Receive(c, source, notes), EndOf(notes))
  {
    var body := notes[..|notes| - 1];
    OutputsArrive(c, source, body);
    DropArrives(c.(lines := FoldChunks(c.lines, Chunks(body))), source);
  }

  /**
   * Whatever a fresh run receives from the server ends on screen: all the
   * output, and running, done, failed or dropped as the stream stands.
   */
  lemma ScreenFollowsServer<E>(c: Console, source: nat, notes: seq<SshSession.Note<E>>)
    requires Live(c, source) && SshSession.WellShaped(notes)
    ensures Receive(c, source, notes).lines == FoldChunks(c.lines, Chunks(notes))
    ensures ShowsEnd(Receive(c, source, notes), EndOf(notes))
  {
    if SshSession.OutputOnly(notes) {
      OutputsArrive(c, source, notes);
    } else if notes[|notes| - 1].Failed? {
      ReceiveError(c, source, notes);
    } else {
      ReceiveExit(c, source, notes);
    }
  }

  /** End to end: any SSH session, streamed to a fresh run from any console a run can reach. */
  lemma SessionToScreen(events: seq<Event>, command: string, limited: bool, session: seq<SshSession.SshEvent>)
    ensures var notes := SshSession.SshRun(SshSession.Opened(limited), session).1;
            var shown := Receive(Ran(events + [Start(command)]), Starts(events), notes);
            shown.lines == FoldChunks([], Chunks(notes)) && ShowsEnd(shown, EndOf(notes))
  {
    SshSession.StreamObserves(limited, session);
    SshSession.ObservedWellShaped(limited, session);
    RunsAreCoherent(events);
    OneSourcePerStart(events);
    assert (events + [Start(command)])[..|events|] == events;
    StartIsLive(Ran(events), command);
    ScreenFollowsServer(Ran(events + [Start(command)]), Starts(events), SshSession.Observed(limited, session));
  }
}
