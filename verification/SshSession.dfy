/**
 * One command over SSH, as the two event machines that run it
 * (`backend/src/shared/ssh/ssh.service.ts`): `stream`, which emits as it goes,
 * and `collect`, which answers once.
 *
 * Taken from RxJS: a subscriber closes on its first error, completion or
 * unsubscribe, runs its teardown then and only then, and ignores everything
 * after that.
 */
module SshSession {
  import opened Wrappers
  import opened Text
  import opened ConsoleOutput

  datatype CommandEvent = Output(text: string, stream: Stream) | Exit(code: int)

  /** What an observer is handed. */
  datatype Note<+E> = Next(event: CommandEvent) | Failed(error: E) | Completed

  datatype SshError =
    | ExecRefused(reason: string) | ConnectionLost(reason: string) | TimeLimit
    | ExitedWith(code: Option<int>, stderr: string)

  /** What the SSH client, the timer and the subscriber can do, in any order. */
  datatype SshEvent =
    | ExecFails(reason: string)
    | Data(text: string, stream: Stream)
    | ChannelCloses(code: Option<int>)
    | ClientFails(reason: string)
    | TimerFires
    | Unsubscribed

  // ---------------------------------------------------------------------------
  // `stream`

  /** `ended` is whether the connection was told to end; `closed` is the subscriber's. */
  datatype SshState = SshState(settled: bool, timer: bool, ended: bool, closed: bool)

  function Opened(limited: bool): SshState {
    SshState(false, limited, false, false)
  }

  const OVER := SshState(true, false, true, true)

  function SshStep(s: SshState, e: SshEvent): (SshState, seq<Note<SshError>>) {
    match e
    case Data(text, stream) => (s, if s.closed then [] else [Next(Output(text, stream))])
    case Unsubscribed => (if s.closed then s else OVER, [])
    case TimerFires =>
      if !s.timer then (s, [])
      else if s.settled then (s.(timer := false), [])
      else (OVER, if s.closed then [] else [Failed(TimeLimit)])
    case ChannelCloses(code) =>
      if s.settled then (s, [])
      else (OVER, if s.closed then [] else [Next(Exit(if code.Some? then code.value else 0)), Completed])
    case ExecFails(reason) =>
      if s.settled then (s, []) else (OVER, if s.closed then [] else [Failed(ExecRefused(reason))])
    case ClientFails(reason) =>
      if s.settled then (s, []) else (OVER, if s.closed then [] else [Failed(ConnectionLost(reason))])
  }

  class SshStream {
    var settled: bool
    var timer: bool
    var ended: bool
    var closed: bool

    constructor (limited: bool)
      ensures State() == Opened(limited)
    {
      settled, timer, ended, closed := false, limited, false, false;
    }

    function State(): SshState
      reads this
    {
      SshState(settled, timer, ended, closed)
    }

    /** Teardown, which the subscriber runs the moment it closes. */
    method Close()
      modifies this
      ensures State() == OVER
    {
      closed := true;
      settled, timer, ended := true, false, true;
    }

    method Finish(error: Option<SshError>, code: Option<int>) returns (notes: seq<Note<SshError>>)
      modifies this
      ensures old(settled) ==> State() == old(State()) && notes == []
      ensures !old(settled) ==> State() == OVER
      ensures !old(settled) && old(closed) ==> notes == []
      ensures !old(settled) && !old(closed) ==>
                notes == if error.Some? then [Failed(error.value)]
                         else [Next(Exit(if code.Some? then code.value else 0)), Completed]
    {
      notes := [];
      if settled {
        return;
      }
      settled, timer := true, false;
      if !closed {
        if error.Some? {
          notes := [Failed(error.value)];
        } else {
          notes := [Next(Exit(if code.Some? then code.value else 0)), Completed];
        }
      }
      Close();
    }

    method On(e: SshEvent) returns (notes: seq<Note<SshError>>)
      modifies this
      ensures (State(), notes) == SshStep(old(State()), e)
    {
      notes := [];
      match e {
        case ExecFails(reason) =>
          notes := Finish(Some(ExecRefused(reason)), None);
        case ClientFails(reason) =>
          notes := Finish(Some(ConnectionLost(reason)), None);
        case ChannelCloses(code) =>
          notes := Finish(None, code);
        case Data(text, stream) =>
          if !closed {
            notes := [Next(Output(text, stream))];
          }
        case TimerFires =>
          if timer {
            timer := false;
            if !settled {
              settled := true;
              if !closed {
                notes := [Failed(TimeLimit)];
              }
              Close();
            }
          }
        case Unsubscribed =>
          if !closed {
            Close();
          }
      }
    }
  }

  function SshRun(s: SshState, events: seq<SshEvent>): (SshState, seq<Note<SshError>>)
    decreases |events|
  {
    if events == [] then (s, [])
    else
      var step := SshStep(s, events[0]);
      var rest := SshRun(step.0, events[1..]);
      (rest.0, step.1 + rest.1)
  }

  /** Told without any state: output up to the first event that settles it, and what that event says. */
  function Observed(limited: bool, events: seq<SshEvent>): seq<Note<SshError>>
    decreases |events|
  {
    if events == [] then []
    else match events[0]
      case Data(text, stream) => [Next(Output(text, stream))] + Observed(limited, events[1..])
      case ChannelCloses(code) => [Next(Exit(if code.Some? then code.value else 0)), Completed]
      case ExecFails(reason) => [Failed(ExecRefused(reason))]
      case ClientFails(reason) => [Failed(ConnectionLost(reason))]
      case TimerFires => if limited then [Failed(TimeLimit)] else Observed(limited, events[1..])
      case Unsubscribed => []
  }

  lemma {:induction false} OverStaysOver(events: seq<SshEvent>)
    ensures SshRun(OVER, events).0 == OVER && SshRun(OVER, events).1 == []
    decreases |events|
  {
    if events != [] {
      OverStaysOver(events[1..]);
      assert SshStep(OVER, events[0]).0 == OVER && SshStep(OVER, events[0]).1 == [];
    }
  }

  /**
   * Whatever order the connection, the channel, the timer and the viewer act
   * in, the observer is told exactly what the first of them to settle the
   * session decides, and nothing after it.
   */
  lemma {:induction false} StreamObserves(limited: bool, events: seq<SshEvent>)
    ensures SshRun(Opened(limited), events).1 == Observed(limited, events)
    ensures SshRun(Opened(limited), events).0 in {Opened(limited), OVER}
    decreases |events|
  {
    if events != [] {
      var step, rest := SshStep(Opened(limited), events[0]), events[1..];
      StreamObserves(limited, rest);
      OverStaysOver(rest);
      if step.0 == OVER {
        assert step.1 + [] == step.1;
      } else {
        assert step.0 == Opened(limited);
      }
    }
  }

  /** Output, then at most one ending: an exit and a completion, or an error. */
  predicate WellShaped<E>(notes: seq<Note<E>>) {
    OutputOnly(notes)
    || (|notes| > 0 && notes[|notes| - 1].Failed? && OutputOnly(notes[..|notes| - 1]))
    || (|notes| > 1 && notes[|notes| - 1].Completed? && IsExit(notes[|notes| - 2]) && OutputOnly(notes[..|notes| - 2]))
  }

  predicate OutputOnly<E>(notes: seq<Note<E>>) {
    forall k :: 0 <= k < |notes| ==> notes[k].Next? && notes[k].event.Output?
  }

  predicate IsExit<E>(n: Note<E>) {
    n.Next? && n.event.Exit?
  }

  lemma {:induction false} ObservedWellShaped(limited: bool, events: seq<SshEvent>)
    ensures WellShaped(Observed(limited, events))
    decreases |events|
  {
    if events != [] {
      var rest := Observed(limited, events[1..]);
      ObservedWellShaped(limited, events[1..]);
      if events[0].Data? {
        var all := [Next(Output(events[0].text, events[0].stream))] + rest;
        if |rest| > 0 {
          assert all[..|all| - 1] == [all[0]] + rest[..|rest| - 1];
        }
        if |rest| > 1 {
          assert all[..|all| - 2] == [all[0]] + rest[..|rest| - 2];
        }
      }
    }
  }

  // ---------------------------------------------------------------------------
  // `collect`

  type Answer = Result<string, SshError>

  datatype Collecting = Collecting(settled: bool, stdout: string, stderr: string, answer: Option<Answer>)

  const UNANSWERED := Collecting(false, "", "", None)

  function CollectStep(s: Collecting, e: SshEvent): Collecting {
    match e
    case Data(text, Stdout) => s.(stdout := s.stdout + text)
    case Data(text, Stderr) => s.(stderr := s.stderr + text)
    case ChannelCloses(code) =>
      Settle(s, if code == Some(0) then Ok(s.stdout) else Err(ExitedWith(code, s.stderr)))
    case ExecFails(reason) => Settle(s, Err(ExecRefused(reason)))
    case ClientFails(reason) => Settle(s, Err(ConnectionLost(reason)))
    case TimerFires => Settle(s, Err(TimeLimit))
    case Unsubscribed => s
  }

  function Settle(s: Collecting, answer: Answer): Collecting {
    if s.settled then s else s.(settled := true, answer := Some(answer))
  }

  class Collector {
    var settled: bool
    var stdout: string
    var stderr: string
    var answer: Option<Answer>

    constructor ()
      ensures State() == UNANSWERED
    {
      settled, stdout, stderr, answer := false, "", "", None;
    }

    function State(): Collecting
      reads this
    {
      Collecting(settled, stdout, stderr, answer)
    }

    method Finish(result: Answer)
      modifies this
      ensures State() == Settle(old(State()), result)
    {
      if !settled {
        settled := true;
        answer := Some(result);
      }
    }

    method On(e: SshEvent)
      modifies this
      ensures State() == CollectStep(old(State()), e)
    {
      match e {
        case ExecFails(reason) => Finish(Err(ExecRefused(reason)));
        case ClientFails(reason) => Finish(Err(ConnectionLost(reason)));
        case TimerFires => Finish(Err(TimeLimit));
        case ChannelCloses(code) =>
          if code == Some(0) {
            Finish(Ok(stdout));
          } else {
            Finish(Err(ExitedWith(code, stderr)));
          }
        case Data(text, stream) =>
          if stream == Stdout {
            stdout := stdout + text;
          } else {
            stderr := stderr + text;
          }
        case Unsubscribed =>
      }
    }
  }

  function CollectRun(s: Collecting, events: seq<SshEvent>): Collecting
    decreases |events|
  {
    if events == [] then s else CollectRun(CollectStep(s, events[0]), events[1..])
  }

  predicate Settles(e: SshEvent) {
    !e.Data? && !e.Unsubscribed?
  }

  /** How many events pass before the first that settles a collected run. */
  function SettledAt(events: seq<SshEvent>): (n: nat)
    ensures n <= |events|
    ensures n < |events| ==> Settles(events[n])
    decreases |events|
  {
    if events == [] || Settles(events[0]) then 0 else 1 + SettledAt(events[1..])
  }

  /** Everything written to one of the two streams. */
  function Written(events: seq<SshEvent>, stream: Stream): string
    decreases |events|
  {
    if events == [] then ""
    else (if events[0].Data? && events[0].stream == stream then events[0].text else "") + Written(events[1..], stream)
  }

  lemma {:induction false} AnswerIsFinal(s: Collecting, events: seq<SshEvent>)
    requires s.settled
    ensures CollectRun(s, events).settled && CollectRun(s, events).answer == s.answer
    decreases |events|
  {
    if events != [] {
      AnswerIsFinal(CollectStep(s, events[0]), events[1..]);
    }
  }

  /** The answer a settling event gives, from what was printed before it. */
  function AnswerTo(e: SshEvent, out: string, err: string): Answer
    requires Settles(e)
  {
    match e
    case ChannelCloses(code) => if code == Some(0) then Ok(out) else Err(ExitedWith(code, err))
    case ExecFails(reason) => Err(ExecRefused(reason))
    case ClientFails(reason) => Err(ConnectionLost(reason))
    case TimerFires => Err(TimeLimit)
  }

  lemma WrittenFirst(e: SshEvent, events: seq<SshEvent>, stream: Stream, before: string)
    ensures var first := if e.Data? && e.stream == stream then e.text else "";
            before + Written([e] + events, stream) == (before + first) + Written(events, stream)
  {
    assert ([e] + events)[1..] == events;
    var first := if e.Data? && e.stream == stream then e.text else "";
    Regroup(before, first, Written(events, stream));
  }

  /** `collect` answers once: what the first settling event says, with what was printed before it. */
  lemma {:induction false} CollectAnswers(s: Collecting, events: seq<SshEvent>)
    requires !s.settled && s.answer == None
    ensures var n := SettledAt(events);
            var out, err := s.stdout + Written(events[..n], Stdout), s.stderr + Written(events[..n], Stderr);
            CollectRun(s, events).answer == if n == |events| then None else Some(AnswerTo(events[n], out, err))
    decreases |events|
  {
    if events == [] {
    } else if Settles(events[0]) {
      AnswerIsFinal(CollectStep(s, events[0]), events[1..]);
      assert events[..0] == [];
      assert s.stdout + "" == s.stdout && s.stderr + "" == s.stderr;
    } else {
      var next, rest := CollectStep(s, events[0]), events[1..];
      CollectAnswers(next, rest);
      var n := SettledAt(rest);
      assert events[..n + 1] == [events[0]] + rest[..n];
      WrittenFirst(events[0], rest[..n], Stdout, s.stdout);
      WrittenFirst(events[0], rest[..n], Stderr, s.stderr);
      assert s.stdout + "" == s.stdout && s.stderr + "" == s.stderr;
    }
  }

  // ---------------------------------------------------------------------------
  // The two agree on success, except about a channel that reports no code.

  predicate StreamSucceeds(notes: seq<Note<SshError>>) {
    |notes| > 1 && notes[|notes| - 2] == Next(Exit(0)) && notes[|notes| - 1] == Completed
  }

  predicate CollectSucceeds(events: seq<SshEvent>) {
    var answer := CollectRun(UNANSWERED, events).answer;
    answer.Some? && answer.value.Ok?
  }

  /** A command killed by a signal closes its channel with no exit code. */
  predicate KilledBeforeSettling(events: seq<SshEvent>) {
    var n := SettledAt(events);
    n < |events| && events[n] == ChannelCloses(None)
  }

  /**
   * Of one session nobody leaves, the streamed form reports success if and only
   * if the collected form does, or the channel closed without a code: streamed,
   * that counts as exit 0; collected, as a failure.
   */
  lemma SuccessAgrees(events: seq<SshEvent>)
    requires forall k :: 0 <= k < |events| ==> !events[k].Unsubscribed?
    ensures StreamSucceeds(Observed(true, events)) <==> CollectSucceeds(events) || KilledBeforeSettling(events)
    ensures !(CollectSucceeds(events) && KilledBeforeSettling(events))
  {
    CollectAnswers(UNANSWERED, events);
    StreamEndsAt(events);
  }

  /** The session that does it: killed by a signal, it exits 0 on screen and fails when collected. */
  lemma SignalCountsAsSuccess()
    ensures StreamSucceeds(Observed(true, [ChannelCloses(None)]))
    ensures CollectRun(UNANSWERED, [ChannelCloses(None)]).answer == Some(Err(ExitedWith(None, "")))
  {
    assert CollectStep(UNANSWERED, ChannelCloses(None)).answer == Some(Err(ExitedWith(None, "")));
    assert [ChannelCloses(None)][1..] == [];
  }

  lemma {:induction false} StreamEndsAt(events: seq<SshEvent>)
    requires forall k :: 0 <= k < |events| ==> !events[k].Unsubscribed?
    ensures var n := SettledAt(events);
            StreamSucceeds(Observed(true, events)) <==>
              n < |events| && (events[n] == ChannelCloses(Some(0)) || events[n] == ChannelCloses(None))
    decreases |events|
  {
    if events != [] && events[0].Data? {
      StreamEndsAt(events[1..]);
      var rest := Observed(true, events[1..]);
      var all := [Next(Output(events[0].text, events[0].stream))] + rest;
      assert |rest| > 1 ==> all[|all| - 2] == rest[|rest| - 2];
      assert |rest| > 0 ==> all[|all| - 1] == rest[|rest| - 1];
    }
  }
}
