/**
 * What every action comes to, told from the turns alone: who waits, who is
 * refused and why, who is streaming and what its SSH session did since it was
 * granted. From that follow, in every interleaving, what each viewer is handed,
 * what is recorded and which locks are held
 * (`backend/src/actions/actions.service.ts`).
 */
module CallHistory {
  import opened Wrappers
  import opened SshCommands
  import opened SshSession
  import opened StreamedCall
  import opened ActionLock

  /**
   * `events` is what happened to a session since it was granted, with
   * `Unsubscribed` where its viewer left or the process ended.
   */
  datatype Life =
    | Unheard
    | Waiting(server: string, request: CommandRequest)
    | Refused(server: string, request: CommandRequest, error: CallError)
    | LeftEarly(server: string, request: CommandRequest)
    | NeverStarted(server: string, request: CommandRequest)
    | Streaming(server: string, request: CommandRequest, events: seq<SshEvent>)
    | Working(server: string, request: CommandRequest)
    | NotWorking(server: string, request: CommandRequest)

  /** Every command but `logs` has a time limit. */
  predicate Limited(request: CommandRequest) {
    Spec(request.command).timeoutMs.Some?
  }

  /** An event a session goes on after. */
  predicate Quiet(limited: bool, e: SshEvent) {
    e.Data? || (e.TimerFires? && !limited)
  }

  /** Nothing has settled the session yet. */
  predicate Going(limited: bool, events: seq<SshEvent>)
    decreases |events|
  {
    events == [] || (Quiet(limited, events[|events| - 1]) && Going(limited, events[..|events| - 1]))
  }

  /** The lock a life holds. */
  function Locked(life: Life): Option<string> {
    match life
    case NeverStarted(server, request) => if Mutating(request) then Some(KeyOf(server, request)) else None
    case Streaming(server, request, events) =>
      if Mutating(request) && Going(Limited(request), events) then Some(KeyOf(server, request)) else None
    case Working(server, request) => Some(KeyOf(server, request))
    case _ => None
  }

  /** One of the actors of the first `k` turns holds it. */
  predicate TakenBy(mode: Rejections, turns: seq<Turn>, k: nat, key: string)
    requires k <= |turns|
    decreases |turns|, 1, k
  {
    k > 0 && (Locked(LifeOf(mode, turns, turns[k - 1].id)) == Some(key) || TakenBy(mode, turns, k - 1, key))
  }

  predicate Taken(mode: Rejections, turns: seq<Turn>, key: string)
    decreases |turns|, 2
  {
    TakenBy(mode, turns, |turns|, key)
  }

  /** The turn starts a call that cannot start, and the process does not survive that. */
  predicate Kills(mode: Rejections, turns: seq<Turn>, t: Turn)
    decreases |turns|, 3
  {
    && mode == EndTheProcess && t.CallTurn? && t.event.Resolves?
    && var life := LifeOf(mode, turns, t.id);
       && life.Waiting? && !Startable(life.request, t.event.target)
       && !(Mutating(life.request) && Taken(mode, turns, KeyOf(life.server, life.request)))
  }

  predicate Up(mode: Rejections, turns: seq<Turn>)
    decreases |turns|, 4
  {
    turns == [] || (Up(mode, turns[..|turns| - 1]) && !Kills(mode, turns[..|turns| - 1], turns[|turns| - 1]))
  }

  /** What the end of the process makes of a life. */
  function CutOff(life: Life): Life {
    match life
    case Waiting(server, request) => LeftEarly(server, request)
    case NeverStarted(server, request) => LeftEarly(server, request)
    case Streaming(server, request, events) => Streaming(server, request, events + [Unsubscribed])
    case Working(server, request) => NotWorking(server, request)
    case _ => life
  }

  /** What an event of its own makes of a call's life, `taken` being whether its lock is. */
  function Lived(life: Life, e: CallEvent, taken: bool): Life {
    match life
    case Waiting(server, request) => (
      match e
      case ResolveFails(reason) => Refused(server, request, Unresolved(reason))
      case Resolves(target) =>
        if Mutating(request) && taken then Refused(server, request, Conflict(KeyOf(server, request)))
        else if Startable(request, target) then Streaming(server, request, [])
        else NeverStarted(server, request)
      case Ssh(_) => life
      case Leave => LeftEarly(server, request))
    case NeverStarted(server, request) => if e.Leave? then LeftEarly(server, request) else life
    case Streaming(server, request, events) =>
      if e.Leave? then Streaming(server, request, events + [Unsubscribed])
      else if e.Ssh? && !e.event.Unsubscribed? then Streaming(server, request, events + [e.event])
      else life
    case _ => life
  }

  function LifeOf(mode: Rejections, turns: seq<Turn>, id: nat): Life
    decreases |turns|, 0
  {
    if turns == [] then Unheard
    else
      var n := |turns| - 1;
      var before, t, life := turns[..n], turns[n], LifeOf(mode, turns[..n], id);
      if !Up(mode, before) then life
      else if Kills(mode, before, t) then CutOff(life)
      else if t.id != id then life
      else match t
        case Subscribe(_, server, request) => if life.Unheard? then Waiting(server, request) else life
        case CallTurn(_, event) =>
          Lived(life, event, life.Waiting? && Taken(mode, before, KeyOf(life.server, life.request)))
        case EnterSection(_, server, request) =>
          if !life.Unheard? then life
          else if Taken(mode, before, KeyOf(server, request)) then NotWorking(server, request)
          else Working(server, request)
        case LeaveSection(_) => if life.Working? then NotWorking(life.server, life.request) else life
  }

  // ---------------------------------------------------------------------------
  // What a life amounts to.

  /** A session's error reaches the viewer as one of the call's. */
  function Wrapped(note: Note<SshError>): Note<CallError> {
    match note
    case Next(event) => Next(event)
    case Failed(error) => Failed(FromSsh(error))
    case Completed => Completed
  }

  /** What the panel's viewer is handed of what the session's observer is. */
  function Handed(notes: seq<Note<SshError>>): (seen: seq<Note<CallError>>)
    ensures |seen| == |notes|
  {
    if notes == [] then []
    else
      var n := |notes| - 1;
      Handed(notes[..n]) + [Wrapped(notes[n])]
  }

  function SeenIn(life: Life): seq<Note<CallError>> {
    match life
    case Refused(_, _, error) => [Failed(error)]
    case Streaming(_, request, events) => Handed(Observed(Limited(request), events))
    case _ => []
  }

  /** The record of the event that settles a session, unless its viewer leaving did. */
  function RecordOf(limited: bool, events: seq<SshEvent>): seq<AuditRecord>
    decreases |events|
  {
    if events == [] then []
    else match events[0]
      case Data(_, _) => RecordOf(limited, events[1..])
      case ChannelCloses(None) => [AuditRecord(Some(0), None, true)]
      case ChannelCloses(Some(code)) => [AuditRecord(Some(code), None, code == 0)]
      case ExecFails(reason) => [AuditRecord(None, Some(ExecRefused(reason)), false)]
      case ClientFails(reason) => [AuditRecord(None, Some(ConnectionLost(reason)), false)]
      case TimerFires => if limited then [AuditRecord(None, Some(TimeLimit), false)] else RecordOf(limited, events[1..])
      case Unsubscribed => []
  }

  function RecordIn(life: Life): seq<AuditRecord> {
    if life.Streaming? && Mutating(life.request) then RecordOf(Limited(life.request), life.events) else []
  }

  function SessionIn(life: Life): Option<SshState> {
    if life.Streaming? then Some(if Going(Limited(life.request), life.events) then Opened(Limited(life.request)) else OVER)
    else None
  }

  predicate OverIn(life: Life) {
    match life
    case Waiting(_, _) => false
    case NeverStarted(_, _) => false
    case Streaming(_, request, events) => !Going(Limited(request), events)
    case _ => true
  }

  /** A call's whole state, but for what it keeps to itself once it is over. */
  predicate CallAgrees(c: CallState, life: Life)
    requires !life.Unheard?
  {
    && c.server == life.server && c.request == life.request
    && c.seen == SeenIn(life) && c.audit == RecordIn(life) && c.inner == SessionIn(life)
    && c.closed == OverIn(life) && HeldKey(Call(c)) == Locked(life)
    && (life.Waiting? ==> c.resolving)
    && (c.resolving ==> life.Waiting? || life.LeftEarly?)
  }

  predicate Agrees(s: System, id: nat, life: Life) {
    if life.Unheard? then id !in s.actors
    else if life.Working? || life.NotWorking? then
      id in s.actors && s.actors[id] == Section(life.server, life.request, life.Working?)
    else id in s.actors && s.actors[id].Call? && CallAgrees(s.actors[id].state, life)
  }

  // ---------------------------------------------------------------------------
  // One event of a session.

  lemma {:induction false} GoingHead(limited: bool, events: seq<SshEvent>)
    requires events != []
    ensures Going(limited, events) <==> Quiet(limited, events[0]) && Going(limited, events[1..])
    decreases |events|
  {
    var n := |events| - 1;
    if n > 0 {
      GoingHead(limited, events[..n]);
      assert events[..n][1..] == events[1..][..n - 1];
    }
  }

  lemma ObservedHead(limited: bool, e: SshEvent, rest: seq<SshEvent>)
    ensures Observed(limited, [e] + rest)
         == Observed(limited, [e]) + if Quiet(limited, e) then Observed(limited, rest) else []
  {
    assert ([e] + rest)[1..] == rest && [e][1..] == [];
  }

  lemma RecordHead(limited: bool, e: SshEvent, rest: seq<SshEvent>)
    ensures RecordOf(limited, [e] + rest) == if Quiet(limited, e) then RecordOf(limited, rest) else RecordOf(limited, [e])
  {
    assert ([e] + rest)[1..] == rest && [e][1..] == [];
  }

  /** What is said and recorded of a session grows at its end, as long as it goes on. */
  lemma {:induction false} ObservedSnoc(limited: bool, events: seq<SshEvent>, e: SshEvent)
    ensures Observed(limited, events + [e])
         == Observed(limited, events) + if Going(limited, events) then Observed(limited, [e]) else []
    decreases |events|
  {
    if events == [] {
      assert [] + [e] == [e];
    } else {
      var rest := events[1..];
      ObservedSnoc(limited, rest, e);
      GoingHead(limited, events);
      assert events == [events[0]] + rest && events + [e] == [events[0]] + (rest + [e]);
      ObservedHead(limited, events[0], rest);
      ObservedHead(limited, events[0], rest + [e]);
    }
  }

  lemma {:induction false} RecordSnoc(limited: bool, events: seq<SshEvent>, e: SshEvent)
    ensures RecordOf(limited, events + [e])
         == if Going(limited, events) then RecordOf(limited, [e]) else RecordOf(limited, events)
    ensures Going(limited, events) ==> RecordOf(limited, events) == []
    decreases |events|
  {
    if events == [] {
      assert [] + [e] == [e];
    } else {
      var rest := events[1..];
      RecordSnoc(limited, rest, e);
      GoingHead(limited, events);
      assert events == [events[0]] + rest && events + [e] == [events[0]] + (rest + [e]);
      RecordHead(limited, events[0], rest);
      RecordHead(limited, events[0], rest + [e]);
    }
  }

  lemma GoingSnoc(limited: bool, events: seq<SshEvent>, e: SshEvent)
    ensures Going(limited, events + [e]) <==> Going(limited, events) && Quiet(limited, e)
  {
    assert (events + [e])[..|events|] == events;
  }

  lemma {:induction false} HandedJoins(earlier: seq<Note<SshError>>, later: seq<Note<SshError>>)
    ensures Handed(earlier + later) == Handed(earlier) + Handed(later)
    decreases |later|
  {
    if later == [] {
      assert earlier + later == earlier;
    } else {
      var n := |later| - 1;
      HandedJoins(earlier, later[..n]);
      assert (earlier + later)[..|earlier| + n] == earlier + later[..n];
    }
  }

  // ---------------------------------------------------------------------------
  // One turn of a call.

  function With(life: Life, e: SshEvent): Life
    requires life.Streaming?
  {
    life.(events := life.events + [e])
  }

  predicate Agreeing(c: CallState, life: Life) {
    CallInv(c) && !life.Unheard? && !life.Working? && !life.NotWorking? && CallAgrees(c, life)
  }

  /** A session that has not settled and is told of one more event. */
  predicate InSession(c: CallState, life: Life) {
    life.Streaming? && Agreeing(c, life) && Going(Limited(life.request), life.events)
  }

  lemma OneHanded(note: Note<SshError>)
    ensures Handed([note]) == [Wrapped(note)]
  {
    assert [note][..0] == [];
    assert Handed([]) == [];
  }

  /** What the event that settles a session hands the viewer last. */
  function LastWords(limited: bool, e: SshEvent): seq<Note<CallError>> {
    match e
    case ChannelCloses(code) => [Next(Exit(if code.Some? then code.value else 0)), Completed]
    case ExecFails(reason) => [Failed(FromSsh(ExecRefused(reason)))]
    case ClientFails(reason) => [Failed(FromSsh(ConnectionLost(reason)))]
    case TimerFires => if limited then [Failed(FromSsh(TimeLimit))] else []
    case Data(text, stream) => [Next(Output(text, stream))]
    case Unsubscribed => []
  }

  lemma OneEventHanded(limited: bool, e: SshEvent)
    ensures Handed(Observed(limited, [e])) == LastWords(limited, e)
  {
    assert [e][1..] == [];
    if e.ChannelCloses? {
      var exit: Note<SshError> := Next(Exit(if e.code.Some? then e.code.value else 0));
      OneHanded(exit);
      OneHanded(Completed);
      HandedJoins([exit], [Completed]);
      assert Observed(limited, [e]) == [exit] + [Completed];
    } else if Observed(limited, [e]) != [] {
      OneHanded(Observed(limited, [e])[0]);
    }
  }

  lemma HandedGrows(limited: bool, events: seq<SshEvent>, e: SshEvent)
    requires Going(limited, events)
    ensures Handed(Observed(limited, events + [e])) == Handed(Observed(limited, events)) + LastWords(limited, e)
  {
    var told, more := Observed(limited, events), Observed(limited, [e]);
    assert Observed(limited, events + [e]) == told + more by { ObservedSnoc(limited, events, e); }
    HandedJoins(told, more);
    OneEventHanded(limited, e);
  }

  /** What one more event adds to what a session that has not settled amounts to. */
  lemma SeenGrows(life: Life, e: SshEvent)
    requires life.Streaming? && Going(Limited(life.request), life.events)
    ensures SeenIn(With(life, e)) == SeenIn(life) + LastWords(Limited(life.request), e)
  {
    HandedGrows(Limited(life.request), life.events, e);
  }

  lemma RecordGrows(life: Life, e: SshEvent)
    requires life.Streaming? && Going(Limited(life.request), life.events)
    ensures RecordIn(With(life, e)) == if Mutating(life.request) then RecordOf(Limited(life.request), [e]) else []
    ensures RecordIn(life) == []
    ensures OverIn(With(life, e)) == !Quiet(Limited(life.request), e)
  {
    GoingSnoc(Limited(life.request), life.events, e);
    RecordSnoc(Limited(life.request), life.events, e);
  }

  /** A call whose session goes on: it passes on what there is to pass on. */
  lemma QuietMoves(running: set<string>, c: CallState, limited: bool, e: SshEvent)
    requires !c.closed && c.inner == Some(Opened(limited)) && Quiet(limited, e)
    ensures CallStep(running, c, Ssh(e)) == (running, c.(seen := c.seen + LastWords(limited, e)))
  {
    var step := SshStep(Opened(limited), e);
    assert step.0 == Opened(limited) && c.(inner := Some(step.0)) == c;
    if e.Data? {
      HandleOne(running, c, step.1);
    } else {
      assert step.1 == [] && c.seen + [] == c.seen;
    }
  }

  /** What a settled session leaves: nothing held, its last words passed on and its record written. */
  predicate Finished(c: CallState, after: CallState, limited: bool, e: SshEvent) {
    && after.server == c.server && after.request == c.request && after.resolving == c.resolving
    && after.closed && after.inner == Some(OVER)
    && after.seen == c.seen + LastWords(limited, e)
    && after.audit == c.audit + if Mutating(c.request) then RecordOf(limited, [e]) else []
  }

  lemma FailureMoves(running: set<string>, c: CallState, limited: bool, e: SshEvent)
    requires !c.closed && c.exitCode == None && c.inner == Some(Opened(limited))
    requires !Quiet(limited, e) && !e.ChannelCloses? && !e.Unsubscribed?
    ensures Finished(c, CallStep(running, c, Ssh(e)).1, limited, e)
  {
    var step := SshStep(Opened(limited), e);
    HandleOne(running, c.(inner := Some(step.0)), step.1);
  }

  lemma ExitMoves(running: set<string>, c: CallState, limited: bool, e: SshEvent)
    requires !c.closed && c.exitCode == None && c.inner == Some(Opened(limited)) && e.ChannelCloses?
    ensures Finished(c, CallStep(running, c, Ssh(e)).1, limited, e)
  {
    var step := SshStep(Opened(limited), e);
    HandleTwo(running, c.(inner := Some(step.0)), step.1);
    assert c.seen + [Next(step.1[0].event)] + [Completed] == c.seen + LastWords(limited, e);
  }

  lemma InSessionAgrees(running: set<string>, c: CallState, life: Life, e: SshEvent)
    requires InSession(c, life) && !e.Unsubscribed?
    ensures CallAgrees(CallStep(running, c, Ssh(e)).1, With(life, e))
  {
    var limited := Limited(life.request);
    SeenGrows(life, e);
    RecordGrows(life, e);
    if Quiet(limited, e) {
      QuietMoves(running, c, limited, e);
    } else if e.ChannelCloses? {
      ExitMoves(running, c, limited, e);
    } else {
      FailureMoves(running, c, limited, e);
    }
  }

  /** A session that settled hears nothing more, and its call stays as it was. */
  lemma SettledAgrees(running: set<string>, c: CallState, life: Life, e: SshEvent)
    requires Agreeing(c, life) && life.Streaming? && !Going(Limited(life.request), life.events)
    ensures CallStep(running, c, Ssh(e)) == (running, c)
    ensures CallAgrees(c, With(life, e))
  {
    var limited := Limited(life.request);
    GoingSnoc(limited, life.events, e);
    ObservedSnoc(limited, life.events, e);
    RecordSnoc(limited, life.events, e);
    assert Observed(limited, life.events) + [] == Observed(limited, life.events);
    assert HandleAll(running, c, []) == (running, c);
  }

  lemma LeavingAgrees(running: set<string>, c: CallState, life: Life)
    requires Agreeing(c, life) && life.Streaming?
    ensures CallAgrees(CallStep(running, c, CallEvent.Leave).1, With(life, Unsubscribed))
    ensures !c.closed ==> CallAgrees(Teardown({}, c).1, With(life, Unsubscribed))
  {
    var limited := Limited(life.request);
    GoingSnoc(limited, life.events, Unsubscribed);
    ObservedSnoc(limited, life.events, Unsubscribed);
    RecordSnoc(limited, life.events, Unsubscribed);
    assert Observed(limited, life.events) + [] == Observed(limited, life.events);
  }

  lemma StreamingAgrees(running: set<string>, c: CallState, life: Life, e: CallEvent)
    requires Agreeing(c, life) && life.Streaming?
    ensures CallAgrees(CallStep(running, c, e).1, Lived(life, e, false))
  {
    if e.Leave? {
      LeavingAgrees(running, c, life);
    } else if e.Ssh? && !e.event.Unsubscribed? {
      if !Going(Limited(life.request), life.events) {
        SettledAgrees(running, c, life, e.event);
      } else {
        InSessionAgrees(running, c, life, e.event);
      }
    }
  }

  lemma WaitingAgrees(running: set<string>, c: CallState, life: Life, e: CallEvent)
    requires Agreeing(c, life) && life.Waiting?
    ensures CallAgrees(CallStep(running, c, e).1, Lived(life, e, KeyOf(life.server, life.request) in running))
  {
    assert Handed([]) == [] && Observed(Limited(life.request), []) == [];
  }

  lemma EventAgrees(running: set<string>, c: CallState, life: Life, e: CallEvent)
    requires Agreeing(c, life)
    ensures CallAgrees(CallStep(running, c, e).1, Lived(life, e, life.Waiting? && KeyOf(life.server, life.request) in running))
  {
    if life.Streaming? {
      StreamingAgrees(running, c, life, e);
    } else if life.Waiting? {
      WaitingAgrees(running, c, life, e);
    }
  }

  lemma CutAgrees(c: CallState, life: Life)
    requires Agreeing(c, life)
    ensures CallAgrees(Cut(Call(c)).state, CutOff(life))
  {
    if life.Streaming? {
      if c.closed {
        SettledAgrees({}, c, life, Unsubscribed);
      } else {
        LeavingAgrees({}, c, life);
      }
    }
  }

  // ---------------------------------------------------------------------------
  // All of them together.

  lemma {:induction false} RunSnoc(mode: Rejections, s: System, turns: seq<Turn>)
    requires turns != []
    ensures Run(mode, s, turns) == Step(mode, Run(mode, s, turns[..|turns| - 1]), turns[|turns| - 1])
    decreases |turns|
  {
    var n := |turns| - 1;
    if n > 0 {
      RunSnoc(mode, Step(mode, s, turns[0]), turns[1..]);
      assert turns[1..][..n - 1] == turns[..n][1..];
    } else {
      assert turns[1..] == [] && turns[..n] == [];
    }
  }

  /** The system is what the lives say: who is there, in what state, and whether the process is. */
  ghost predicate IsTold(mode: Rejections, turns: seq<Turn>, s: System) {
    (s.up <==> Up(mode, turns)) && forall id: nat :: Agrees(s, id, LifeOf(mode, turns, id))
  }

  lemma AgreedHold(s: System, id: nat, life: Life, key: string)
    requires Agrees(s, id, life)
    ensures Holds(s, id, key) <==> Locked(life) == Some(key)
  {
  }

  /** Only an actor of some turn has a life at all. */
  lemma {:induction false} HeardOf(mode: Rejections, turns: seq<Turn>, id: nat)
    requires forall k :: 0 <= k < |turns| ==> turns[k].id != id
    ensures LifeOf(mode, turns, id) == Unheard
    decreases |turns|
  {
    if turns != [] {
      HeardOf(mode, turns[..|turns| - 1], id);
    }
  }

  lemma {:induction false} TakenIff(mode: Rejections, turns: seq<Turn>, s: System, k: nat, key: string)
    requires Inv(s) && IsTold(mode, turns, s) && k <= |turns|
    ensures TakenBy(mode, turns, k, key) ==> key in s.running
    ensures forall i :: 0 <= i < k && Holds(s, turns[i].id, key) ==> TakenBy(mode, turns, k, key)
    decreases k
  {
    if k > 0 {
      TakenIff(mode, turns, s, k - 1, key);
      AgreedHold(s, turns[k - 1].id, LifeOf(mode, turns, turns[k - 1].id), key);
    }
  }

  lemma KeysAreTold(mode: Rejections, turns: seq<Turn>, s: System, key: string)
    requires Inv(s) && IsTold(mode, turns, s)
    ensures key in s.running <==> Taken(mode, turns, key)
  {
    TakenIff(mode, turns, s, |turns|, key);
    if key in s.running {
      var id: nat :| Holds(s, id, key);
      AgreedHold(s, id, LifeOf(mode, turns, id), key);
      if forall k :: 0 <= k < |turns| ==> turns[k].id != id {
        HeardOf(mode, turns, id);
      }
    }
  }

  lemma KillsIsFatal(mode: Rejections, turns: seq<Turn>, s: System, t: Turn)
    requires Inv(s) && IsTold(mode, turns, s) && s.up
    ensures Kills(mode, turns, t) <==> mode == EndTheProcess && Fatal(s, t)
  {
    var life := LifeOf(mode, turns, t.id);
    assert Agrees(s, t.id, life);
    if life.Waiting? {
      KeysAreTold(mode, turns, s, KeyOf(life.server, life.request));
    }
  }

  lemma ActorIsCut(s: System, id: nat, life: Life)
    requires Inv(s) && Agrees(s, id, life)
    ensures Agrees(Ended(s), id, CutOff(life))
  {
    if id in s.actors && s.actors[id].Call? {
      CutAgrees(s.actors[id].state, life);
    }
  }

  /** The call that ends the process is one of those it cuts off. */
  lemma KillerIsCut(s: System, t: Turn, life: Life)
    requires Inv(s) && Fatal(s, t) && Agrees(s, t.id, life)
    ensures Agrees(Step(EndTheProcess, s, t), t.id, CutOff(life))
  {
  }

  lemma EndedActor(s: System, t: Turn, id: nat)
    requires Inv(s) && Fatal(s, t) && id != t.id
    ensures var after := Step(EndTheProcess, s, t).actors;
            (id in after <==> id in s.actors) && (id in s.actors ==> after[id] == Cut(s.actors[id]))
  {
  }

  lemma OthersAreCut(s: System, t: Turn, id: nat, life: Life)
    requires Inv(s) && Fatal(s, t) && id != t.id && Agrees(s, id, life)
    ensures Agrees(Step(EndTheProcess, s, t), id, CutOff(life))
  {
    ActorIsCut(s, id, life);
    EndedActor(s, t, id);
  }

  /** A turn of somebody else. */
  lemma OthersStay(mode: Rejections, s: System, t: Turn, id: nat, life: Life)
    requires Inv(s) && id != t.id && !(mode == EndTheProcess && Fatal(s, t)) && Agrees(s, id, life)
    ensures Agrees(Step(mode, s, t), id, life)
  {
  }

  lemma CallMoves(mode: Rejections, s: System, t: Turn, life: Life, taken: bool)
    requires Inv(s) && s.up && t.CallTurn? && !(mode == EndTheProcess && Fatal(s, t)) && Agrees(s, t.id, life)
    requires life.Waiting? ==> (taken <==> KeyOf(life.server, life.request) in s.running)
    ensures Agrees(Step(mode, s, t), t.id, Lived(life, t.event, life.Waiting? && taken))
  {
    if t.id in s.actors && s.actors[t.id].Call? {
      EventAgrees(s.running, s.actors[t.id].state, life, t.event);
    }
  }

  lemma StepIsTold(mode: Rejections, turns: seq<Turn>, s: System, t: Turn, id: nat)
    requires Inv(s) && IsTold(mode, turns, s)
    ensures Agrees(Step(mode, s, t), id, LifeOf(mode, turns + [t], id))
  {
    var life := LifeOf(mode, turns, id);
    assert (turns + [t])[..|turns|] == turns;
    assert Agrees(s, id, life);
    if s.up {
      KillsIsFatal(mode, turns, s, t);
      if Kills(mode, turns, t) {
        if id == t.id { KillerIsCut(s, t, life); } else { OthersAreCut(s, t, id, life); }
      } else if id != t.id {
        OthersStay(mode, s, t, id, life);
      } else {
        OwnTurnIsTold(mode, turns, s, t);
      }
    }
  }

  lemma OwnTurnIsTold(mode: Rejections, turns: seq<Turn>, s: System, t: Turn)
    requires Inv(s) && IsTold(mode, turns, s) && s.up && !Kills(mode, turns, t)
    ensures Agrees(Step(mode, s, t), t.id, LifeOf(mode, turns + [t], t.id))
  {
    var life := LifeOf(mode, turns, t.id);
    assert (turns + [t])[..|turns|] == turns;
    assert Agrees(s, t.id, life);
    KillsIsFatal(mode, turns, s, t);
    if t.CallTurn? {
      var key := if life.Waiting? then KeyOf(life.server, life.request) else "";
      KeysAreTold(mode, turns, s, key);
      CallMoves(mode, s, t, life, Taken(mode, turns, key));
    } else if t.EnterSection? {
      KeysAreTold(mode, turns, s, KeyOf(t.server, t.request));
    }
  }

  /** In every interleaving, whatever becomes of rejections. */
  lemma {:induction false} RunIsTold(mode: Rejections, turns: seq<Turn>)
    ensures IsTold(mode, turns, Run(mode, IDLE, turns))
    decreases |turns|
  {
    if turns != [] {
      var n := |turns| - 1;
      var s := Run(mode, IDLE, turns[..n]);
      RunIsTold(mode, turns[..n]);
      RunSnoc(mode, IDLE, turns);
      LocksAreExclusive(mode, IDLE, turns[..n]);
      assert turns == turns[..n] + [turns[n]];
      forall id: nat ensures Agrees(Step(mode, s, turns[n]), id, LifeOf(mode, turns, id)) {
        StepIsTold(mode, turns[..n], s, turns[n], id);
      }
      if s.up {
        KillsIsFatal(mode, turns[..n], s, turns[n]);
        UpIffNotFatal(mode, s, turns[n]);
      }
    }
  }

  lemma UpIffNotFatal(mode: Rejections, s: System, t: Turn)
    requires Inv(s) && s.up
    ensures Step(mode, s, t).up <==> !(mode == EndTheProcess && Fatal(s, t))
  {
  }

  // ---------------------------------------------------------------------------
  // What everyone may rely on.

  /**
   * In every interleaving a viewer is handed, note by note, what its own SSH
   * session says from the turn that granted it to its leaving or the end of the
   * process; or its one error; or nothing. A mutating one leaves the record of
   * the event that settled its session, and there is a session exactly when it
   * was granted and could start.
   */
  lemma ViewerIsHandedItsSession(mode: Rejections, turns: seq<Turn>, id: nat)
    requires id in Run(mode, IDLE, turns).actors && Run(mode, IDLE, turns).actors[id].Call?
    ensures var c, life := Run(mode, IDLE, turns).actors[id].state, LifeOf(mode, turns, id);
            && !life.Unheard? && c.server == life.server && c.request == life.request
            && (c.inner.Some? <==> life.Streaming?)
            && match life {
                 case Streaming(_, request, events) =>
                   c.seen == Handed(Observed(Limited(request), events))
                   && c.audit == if Mutating(request) then RecordOf(Limited(request), events) else []
                 case Refused(_, _, error) => c.seen == [Failed(error)] && c.audit == []
                 case _ => c.seen == [] && c.audit == []
               }
  {
    RunIsTold(mode, turns);
    assert Agrees(Run(mode, IDLE, turns), id, LifeOf(mode, turns, id));
  }

  /** Which keys are locked, and who holds each, told from the turns. */
  lemma LocksAreTold(mode: Rejections, turns: seq<Turn>, id: nat, key: string)
    ensures key in Run(mode, IDLE, turns).running <==> Taken(mode, turns, key)
    ensures Holds(Run(mode, IDLE, turns), id, key) <==> Locked(LifeOf(mode, turns, id)) == Some(key)
  {
    RunIsTold(mode, turns);
    LocksAreExclusive(mode, IDLE, turns);
    KeysAreTold(mode, turns, Run(mode, IDLE, turns), key);
    AgreedHold(Run(mode, IDLE, turns), id, LifeOf(mode, turns, id), key);
  }

  /**
   * A call whose target is found, whose viewer is there, whose key is free if it
   * changes anything, and which can start, has its session open at once and its
   * lock taken, if it takes one.
   */
  lemma GrantedCallStarts(mode: Rejections, turns: seq<Turn>, id: nat, target: Target)
    requires Up(mode, turns) && LifeOf(mode, turns, id).Waiting?
    requires var life := LifeOf(mode, turns, id);
             Startable(life.request, target) && !(Mutating(life.request) && Taken(mode, turns, KeyOf(life.server, life.request)))
    ensures var life := LifeOf(mode, turns, id);
            var after := Run(mode, IDLE, turns + [CallTurn(id, Resolves(target))]);
            && id in after.actors && after.actors[id].Call?
            && after.actors[id].state.inner == Some(Opened(Limited(life.request)))
            && HeldKey(after.actors[id]) == if Mutating(life.request) then Some(KeyOf(life.server, life.request)) else None
  {
    var after := turns + [CallTurn(id, Resolves(target))];
    assert after[..|turns|] == turns;
    RunIsTold(mode, after);
    assert Agrees(Run(mode, IDLE, after), id, LifeOf(mode, after, id));
    assert LifeOf(mode, after, id) == Streaming(LifeOf(mode, turns, id).server, LifeOf(mode, turns, id).request, []);
  }

  lemma SectionLife(mode: Rejections, turns: seq<Turn>, id: nat, server: string, request: CommandRequest)
    requires Up(mode, turns) && LifeOf(mode, turns, id).Unheard?
    ensures var inside := turns + [EnterSection(id, server, request)];
            && LifeOf(mode, inside, id)
               == (if Taken(mode, turns, KeyOf(server, request)) then NotWorking(server, request) else Working(server, request))
            && LifeOf(mode, inside + [LeaveSection(id)], id) == NotWorking(server, request)
  {
    var inside := turns + [EnterSection(id, server, request)];
    assert inside[..|turns|] == turns && inside[|turns|] == EnterSection(id, server, request);
    assert Up(mode, inside);
    assert (inside + [LeaveSection(id)])[..|inside|] == inside;
  }

  /** A section works exactly when no live actor holds its key, and until it leaves. */
  lemma SectionEntersIffFree(mode: Rejections, turns: seq<Turn>, id: nat, server: string, request: CommandRequest)
    requires Up(mode, turns) && LifeOf(mode, turns, id).Unheard?
    ensures var inside := turns + [EnterSection(id, server, request)];
            var entered, left := Run(mode, IDLE, inside).actors, Run(mode, IDLE, inside + [LeaveSection(id)]).actors;
            && id in entered && entered[id] == Section(server, request, !Taken(mode, turns, KeyOf(server, request)))
            && id in left && left[id] == Section(server, request, false)
  {
    var inside := turns + [EnterSection(id, server, request)];
    SectionLife(mode, turns, id, server, request);
    RunIsTold(mode, inside);
    RunIsTold(mode, inside + [LeaveSection(id)]);
    assert Agrees(Run(mode, IDLE, inside), id, LifeOf(mode, inside, id));
    assert Agrees(Run(mode, IDLE, inside + [LeaveSection(id)]), id, LifeOf(mode, inside + [LeaveSection(id)], id));
  }
}
