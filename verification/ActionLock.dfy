/**
 * Any number of streamed actions and `withLock` sections, their turns
 * interleaved in any order over the one lock set
 * (`backend/src/actions/actions.service.ts`). `run` takes no lock and is not
 * an actor here.
 */
module ActionLock {
  import opened Wrappers
  import opened SshCommands
  import opened SshSession
  import opened StreamedCall
  import opened LockKey

  datatype Actor = Call(state: CallState) | Section(server: string, request: CommandRequest, working: bool)

  /** `up` is whether the process is still there. */
  datatype System = System(running: set<string>, actors: map<nat, Actor>, up: bool)

  /**
   * What becomes of a promise that rejects with nobody to hear it. The image
   * runs `node` with no flag and installs no hook
   * (`infra/homeserver/atalaya/backend.Dockerfile:43,85`), so it ends the
   * process; with `--unhandled-rejections=warn` it would only be reported.
   */
  datatype Rejections = EndTheProcess | OnlyWarn

  /** One turn of the event loop, by one actor. Arriving ids are new ones. */
  datatype Turn =
    | Subscribe(id: nat, server: string, request: CommandRequest)
    | CallTurn(id: nat, event: CallEvent)
    | EnterSection(id: nat, server: string, request: CommandRequest)
    | LeaveSection(id: nat)

  const IDLE := System({}, map[], true)

  /** What the end of the process leaves of an actor: nothing held, nothing more said, recorded or started. */
  function Cut(a: Actor): Actor {
    match a
    case Call(c) => if c.closed then a else Call(Teardown({}, c).1)
    case Section(_, _, _) => a.(working := false)
  }

  function Ended(s: System): System {
    System({}, map id | id in s.actors :: Cut(s.actors[id]), false)
  }

  function Step(mode: Rejections, s: System, t: Turn): System {
    if !s.up then s
    else match t
      case Subscribe(id, server, request) =>
        if id in s.actors then s else s.(actors := s.actors[id := Call(Subscribed(server, request))])
      case CallTurn(id, event) =>
        if id !in s.actors || s.actors[id].Section? then s
        else
          var c := s.actors[id].state;
          var step := CallStep(s.running, c, event);
          var after := System(step.0, s.actors[id := Call(step.1)], true);
          if mode == EndTheProcess && Rejects(s.running, c, event) then Ended(after) else after
      case EnterSection(id, server, request) =>
        var key := KeyOf(server, request);
        if id in s.actors then s
        else if key in s.running then s.(actors := s.actors[id := Section(server, request, false)])
        else System(s.running + {key}, s.actors[id := Section(server, request, true)], true)
      case LeaveSection(id) =>
        if id !in s.actors || s.actors[id].Call? || !s.actors[id].working then s
        else
          var a := s.actors[id];
          System(s.running - {KeyOf(a.server, a.request)}, s.actors[id := a.(working := false)], true)
  }

  function Run(mode: Rejections, s: System, turns: seq<Turn>): System
    decreases |turns|
  {
    if turns == [] then s else Run(mode, Step(mode, s, turns[0]), turns[1..])
  }

  /** The key an actor holds: a call's until it closes, a section's while it works. */
  function HeldKey(a: Actor): Option<string> {
    match a
    case Call(c) => if c.closed then None else c.lockedKey
    case Section(server, request, working) => if working then Some(KeyOf(server, request)) else None
  }

  predicate Holds(s: System, id: nat, key: string) {
    id in s.actors && HeldKey(s.actors[id]) == Some(key)
  }

  /** The set is exactly the keys of the live holders, and no two of them share one. */
  ghost predicate Exclusive(s: System) {
    && (forall key :: key in s.running <==> exists id :: Holds(s, id, key))
    && (forall i, j, key :: Holds(s, i, key) && Holds(s, j, key) ==> i == j)
  }

  // ---------------------------------------------------------------------------
  // One call at a time.

  /** The record a finished stream leaves: one if the SSH session ended it, none otherwise. */
  function ExpectedAudit(c: CallState): seq<AuditRecord> {
    var n := |c.seen|;
    if !Mutating(c.request) || n == 0 then []
    else match c.seen[n - 1]
      case Completed =>
        if n > 1 && IsExit(c.seen[n - 2])
        then [AuditRecord(Some(c.seen[n - 2].event.code), None, c.seen[n - 2].event.code == 0)] else []
      case Failed(FromSsh(error)) => [AuditRecord(None, Some(error), false)]
      case _ => []
  }

  predicate CallInv(c: CallState) {
    && c.cancelled == c.closed
    && (c.lockedKey.Some? ==> c.lockedKey.value == KeyOf(c.server, c.request))
    && (c.resolving ==> c.lockedKey == None && c.inner == None && c.seen == [] && c.audit == [])
    && (c.inner.Some? ==> c.inner.value == if c.closed then OVER else Opened(c.inner.value.timer))
    && (!c.closed ==> OutputOnly(c.seen) && c.exitCode == None)
    && (c.inner.None? && !c.closed ==> c.seen == [])
    && WellShaped(c.seen)
    && c.audit == ExpectedAudit(c)
  }

  /** A turn leaves the locks alone, takes one that was free, or gives back its own. */
  predicate LockMove(running: set<string>, held: Option<string>, running': set<string>, held': Option<string>) {
    || (running' == running && held' == held)
    || (held == None && held'.Some? && held'.value !in running && running' == running + {held'.value})
    || (held.Some? && held' == None && running' == running - {held.value})
  }

  predicate TurnOk(running: set<string>, c: CallState, after: (set<string>, CallState)) {
    CallInv(after.1) && LockMove(running, HeldKey(Call(c)), after.0, HeldKey(Call(after.1)))
  }

  lemma EndOk(running: set<string>, c: CallState, note: Note<CallError>)
    requires c.cancelled == c.closed && !c.closed && OutputOnly(c.seen) && c.exitCode == None && !c.resolving
    requires c.inner.Some? ==> c.inner.value == Opened(c.inner.value.timer) || c.inner.value == OVER
    requires c.audit == [] && note.Failed?
    requires c.lockedKey.Some? ==> c.lockedKey.value == KeyOf(c.server, c.request)
    requires note.error.FromSsh? ==> !Mutating(c.request)
    ensures TurnOk(running, c, End(running, c, note))
  {
    var after := End(running, c, note);
    var n := |c.seen|;
    assert after.1.seen[..n] == c.seen;
    assert after.1.inner.Some? ==> after.1.inner.value == OVER;
  }

  lemma ResolveOk(running: set<string>, c: CallState, e: CallEvent)
    requires CallInv(c) && (e.ResolveFails? || e.Resolves?)
    ensures TurnOk(running, c, CallStep(running, c, e))
  {
    if c.resolving && !c.closed {
      if e.ResolveFails? {
        EndOk(running, c.(resolving := false), Failed(Unresolved(e.reason)));
      } else if Mutating(c.request) && KeyOf(c.server, c.request) in running {
        EndOk(running, c.(resolving := false), Failed(Conflict(KeyOf(c.server, c.request))));
      }
    }
  }

  lemma LeaveOk(running: set<string>, c: CallState)
    requires CallInv(c)
    ensures TurnOk(running, c, CallStep(running, c, CallEvent.Leave))
  {
  }

  lemma HandleOne(running: set<string>, c: CallState, notes: seq<Note<SshError>>)
    requires |notes| == 1
    ensures HandleAll(running, c, notes) == Handle(running, c, notes[0])
  {
    var step := Handle(running, c, notes[0]);
    assert notes[1..] == [];
    assert HandleAll(step.0, step.1, []) == step;
  }

  lemma HandleTwo(running: set<string>, c: CallState, notes: seq<Note<SshError>>)
    requires |notes| == 2
    ensures var step := Handle(running, c, notes[0]);
            HandleAll(running, c, notes) == Handle(step.0, step.1, notes[1])
  {
    var step := Handle(running, c, notes[0]);
    assert notes[1..] == [notes[1]];
    HandleOne(step.0, step.1, notes[1..]);
  }

  /** What an ending of its session leaves of a call: these last words, this record, and nothing held. */
  function Ending(c: CallState, words: seq<Note<CallError>>, records: seq<AuditRecord>): CallState {
    c.(cancelled := true, closed := true, inner := Some(OVER), lockedKey := None,
       seen := c.seen + words, audit := if Mutating(c.request) then records else [])
  }

  lemma FailureEnds(seen: seq<Note<CallError>>, error: CallError)
    requires OutputOnly(seen)
    ensures WellShaped(seen + [Failed(error)])
  {
    assert (seen + [Failed(error)])[..|seen|] == seen;
  }

  lemma FailedIsOk(c: CallState, error: SshError)
    requires CallInv(c) && !c.closed && c.inner.Some?
    ensures CallInv(Ending(c, [Failed(FromSsh(error))], [AuditRecord(None, Some(error), false)]))
  {
    FailureEnds(c.seen, FromSsh(error));
  }

  /** The session fails: the error is recorded, passed on, and the lock goes. */
  lemma SessionFails(running: set<string>, c: CallState, error: SshError)
    requires CallInv(c) && !c.closed && c.inner.Some?
    ensures var after := Handle(running, c.(inner := Some(OVER)), Failed(error));
            && after.1 == Ending(c, [Failed(FromSsh(error))], [AuditRecord(None, Some(error), false)])
            && after.0 == if c.lockedKey.Some? then running - {c.lockedKey.value} else running
  {
    assert c.audit == [];
  }

  lemma ExitEndsWell(seen: seq<Note<CallError>>, code: int)
    requires OutputOnly(seen)
    ensures WellShaped(seen + [Next(Exit(code))] + [Completed])
    ensures var after := seen + [Next(Exit(code))] + [Completed];
            after[|after| - 1].Completed? && after[|after| - 2] == Next(Exit(code))
  {
    var after := seen + [Next(Exit(code))] + [Completed];
    assert after[..|after| - 2] == seen;
  }

  /** The session exits: the code is kept, recorded and passed on, and the lock goes. */
  lemma SessionExits(running: set<string>, c: CallState, code: int)
    requires CallInv(c) && !c.closed && c.inner.Some?
    ensures var step := Handle(running, c.(inner := Some(OVER)), Next(Exit(code)));
            TurnOk(running, c, Handle(step.0, step.1, Completed))
  {
    assert c.audit == [];
    var step := Handle(running, c.(inner := Some(OVER)), Next(Exit(code)));
    var after := Handle(step.0, step.1, Completed).1;
    ExitEndsWell(c.seen, code);
    assert after.seen == c.seen + [Next(Exit(code))] + [Completed];
    assert after.audit == ExpectedAudit(after);
    assert after.inner == Some(OVER);
  }

  lemma SessionGoesOn(running: set<string>, c: CallState, event: CommandEvent)
    requires CallInv(c) && !c.closed && c.inner.Some? && event.Output?
    ensures TurnOk(running, c, Handle(running, c, Next(event)))
  {
    assert c.audit == [];
  }

  lemma SshOk(running: set<string>, c: CallState, event: SshEvent)
    requires CallInv(c)
    ensures TurnOk(running, c, CallStep(running, c, Ssh(event)))
  {
    if c.inner.Some? && !event.Unsubscribed? {
      var s := c.inner.value;
      var step := SshStep(s, event);
      var c' := c.(inner := Some(step.0));
      if |step.1| == 0 {
        assert HandleAll(running, c', step.1) == (running, c');
        assert step.0 == s;
      } else if |step.1| == 1 {
        HandleOne(running, c', step.1);
        if step.1[0].Failed? {
          SessionFails(running, c, step.1[0].error);
          FailedIsOk(c, step.1[0].error);
        } else {
          assert c' == c;
          SessionGoesOn(running, c, step.1[0].event);
        }
      } else {
        HandleTwo(running, c', step.1);
        SessionExits(running, c, step.1[0].event.code);
      }
    }
  }

  lemma CallTurnOk(running: set<string>, c: CallState, e: CallEvent)
    requires CallInv(c)
    ensures TurnOk(running, c, CallStep(running, c, e))
  {
    match e {
      case Ssh(event) => SshOk(running, c, event);
      case Leave => LeaveOk(running, c);
      case _ => ResolveOk(running, c, e);
    }
  }

  // ---------------------------------------------------------------------------
  // All of them together.

  ghost predicate Inv(s: System) {
    Exclusive(s) && forall id :: id in s.actors && s.actors[id].Call? ==> CallInv(s.actors[id].state)
  }

  lemma ActorMoves(s: System, id: nat, a: Actor, running: set<string>)
    requires Exclusive(s)
    requires LockMove(s.running, if id in s.actors then HeldKey(s.actors[id]) else None, running, HeldKey(a))
    ensures Exclusive(System(running, s.actors[id := a], true))
  {
    var s' := System(running, s.actors[id := a], true);
    assert forall j, key :: j != id ==> (Holds(s', j, key) <==> Holds(s, j, key));
    var held := if id in s.actors then HeldKey(s.actors[id]) else None;
    forall key ensures key in running <==> exists j :: Holds(s', j, key) {
      OneKey(s, s', id, held, HeldKey(a), key);
    }
    forall i, j, key | Holds(s', i, key) && Holds(s', j, key) ensures i == j {
      if i != j && (i == id || j == id) {
        var other := if i == id then j else i;
        assert Holds(s, other, key);
        if HeldKey(a) == held {
          assert Holds(s, id, key);
        }
      }
    }
  }

  lemma OneKey(s: System, s': System, id: nat, held: Option<string>, held': Option<string>, key: string)
    requires Exclusive(s) && LockMove(s.running, held, s'.running, held')
    requires forall j, k :: j != id ==> (Holds(s', j, k) <==> Holds(s, j, k))
    requires forall k :: Holds(s, id, k) <==> held == Some(k)
    requires forall k :: Holds(s', id, k) <==> held' == Some(k)
    ensures key in s'.running <==> exists j :: Holds(s', j, key)
  {
    if key in s'.running {
      if held' == Some(key) {
        assert Holds(s', id, key);
      } else {
        assert key in s.running;
        var j :| Holds(s, j, key);
        assert j != id;
        assert Holds(s', j, key);
      }
    }
    forall j | Holds(s', j, key) ensures key in s'.running {
      HolderIsListed(s, s', id, held, held', j, key);
    }
  }

  lemma HolderIsListed(s: System, s': System, id: nat, held: Option<string>, held': Option<string>, j: nat, key: string)
    requires Exclusive(s) && LockMove(s.running, held, s'.running, held')
    requires j != id ==> Holds(s, j, key)
    requires j == id ==> held' == Some(key)
    requires Holds(s, id, key) <==> held == Some(key)
    ensures key in s'.running
  {
    assert Holds(s, j, key) ==> key in s.running;
  }

  lemma CutOk(a: Actor)
    requires a.Call? ==> CallInv(a.state)
    ensures HeldKey(Cut(a)) == None && Cut(a).Call? == a.Call?
    ensures a.Call? ==> CallInv(Cut(a).state)
  {
  }

  lemma EndedKeepsInv(s: System)
    requires Inv(s)
    ensures Inv(Ended(s))
  {
    var s' := Ended(s);
    forall id | id in s'.actors ensures HeldKey(s'.actors[id]) == None && (s'.actors[id].Call? ==> CallInv(s'.actors[id].state)) {
      CutOk(s.actors[id]);
    }
  }

  lemma StepKeepsInv(mode: Rejections, s: System, t: Turn)
    requires Inv(s)
    ensures Inv(Step(mode, s, t))
  {
    if s.up {
      match t {
        case Subscribe(id, server, request) =>
          if id !in s.actors {
            ActorMoves(s, id, Call(Subscribed(server, request)), s.running);
          }
        case CallTurn(id, event) =>
          if id in s.actors && s.actors[id].Call? {
            CallTurnKeepsInv(s, id, event);
            var step := CallStep(s.running, s.actors[id].state, event);
            EndedKeepsInv(System(step.0, s.actors[id := Call(step.1)], true));
          }
        case EnterSection(id, server, request) =>
          if id !in s.actors {
            var key := KeyOf(server, request);
            ActorMoves(s, id, Section(server, request, key !in s.running), s.running + {key});
          }
        case LeaveSection(id) =>
          if id in s.actors && s.actors[id].Section? && s.actors[id].working {
            var a := s.actors[id];
            ActorMoves(s, id, a.(working := false), s.running - {KeyOf(a.server, a.request)});
          }
      }
    }
  }

  lemma CallTurnKeepsInv(s: System, id: nat, event: CallEvent)
    requires Inv(s) && id in s.actors && s.actors[id].Call?
    ensures var step := CallStep(s.running, s.actors[id].state, event);
            Inv(System(step.0, s.actors[id := Call(step.1)], true))
  {
    CallTurnOk(s.running, s.actors[id].state, event);
    var step := CallStep(s.running, s.actors[id].state, event);
    ActorMoves(s, id, Call(step.1), step.0);
  }

  /** Over every interleaving, the lock set is exactly what the live holders hold, each key held once. */
  lemma {:induction false} LocksAreExclusive(mode: Rejections, s: System, turns: seq<Turn>)
    requires Inv(s)
    ensures Inv(Run(mode, s, turns))
    decreases |turns|
  {
    if turns != [] {
      StepKeepsInv(mode, s, turns[0]);
      LocksAreExclusive(mode, Step(mode, s, turns[0]), turns[1..]);
    }
  }

  lemma FromIdle(mode: Rejections, turns: seq<Turn>)
    ensures Inv(Run(mode, IDLE, turns))
    ensures (forall id :: id in Run(mode, IDLE, turns).actors ==> HeldKey(Run(mode, IDLE, turns).actors[id]) == None)
            ==> Run(mode, IDLE, turns).running == {}
  {
    LocksAreExclusive(mode, IDLE, turns);
    var s := Run(mode, IDLE, turns);
    if key :| key in s.running {
      var id :| Holds(s, id, key);
    }
  }

  // ---------------------------------------------------------------------------
  // Which instance a key is.

  /** What an actor acts on. */
  function ServerOf(a: Actor): string {
    match a { case Call(c) => c.server case Section(server, _, _) => server }
  }

  function RequestOf(a: Actor): CommandRequest {
    match a { case Call(c) => c.request case Section(_, request, _) => request }
  }

  predicate ActsOn(s: System, id: nat, server: string, name: string) {
    id in s.actors && ServerOf(s.actors[id]) == server && RequestOf(s.actors[id]).argument == Some(name)
  }

  /** Two actions share a key exactly when they name the same thing on the same server. */
  lemma KeysSeparateInstances(serverA: string, a: CommandRequest, serverB: string, b: CommandRequest)
    requires a.argument.Some? && SafeName(a.argument.value)
    requires b.argument.Some? && SafeName(b.argument.value)
    ensures KeyOf(serverA, a) == KeyOf(serverB, b) <==> serverA == serverB && a.argument == b.argument
  {
    if KeyOf(serverA, a) == KeyOf(serverB, b) {
      KeyIsInjective(serverA, a.argument.value, serverB, b.argument.value);
    }
  }

  lemma HolderKey(s: System, id: nat, key: string)
    requires Inv(s) && Holds(s, id, key)
    ensures key == KeyOf(ServerOf(s.actors[id]), RequestOf(s.actors[id]))
  {
  }

  /** In every interleaving, no two live holders act on the same instance of the same server. */
  lemma OneHolderPerInstance(mode: Rejections, turns: seq<Turn>, i: nat, j: nat, a: string, b: string, server: string, name: string)
    requires Holds(Run(mode, IDLE, turns), i, a) && Holds(Run(mode, IDLE, turns), j, b)
    requires ActsOn(Run(mode, IDLE, turns), i, server, name) && ActsOn(Run(mode, IDLE, turns), j, server, name)
    ensures i == j
  {
    var s := Run(mode, IDLE, turns);
    LocksAreExclusive(mode, IDLE, turns);
    HolderKey(s, i, a);
    HolderKey(s, j, b);
  }

  predicate Named(a: Actor) {
    RequestOf(a).argument.Some? && SafeName(RequestOf(a).argument.value)
  }

  /**
   * And a refusal is always for a reason: in every interleaving, a taken key is
   * a live holder's, and one that names an instance names this very one.
   */
  lemma RefusalHasAHolder(mode: Rejections, turns: seq<Turn>, server: string, request: CommandRequest) returns (id: nat)
    requires request.argument.Some? && SafeName(request.argument.value)
    requires KeyOf(server, request) in Run(mode, IDLE, turns).running
    ensures Holds(Run(mode, IDLE, turns), id, KeyOf(server, request))
    ensures Named(Run(mode, IDLE, turns).actors[id]) ==> ActsOn(Run(mode, IDLE, turns), id, server, request.argument.value)
  {
    var s := Run(mode, IDLE, turns);
    LocksAreExclusive(mode, IDLE, turns);
    id :| Holds(s, id, KeyOf(server, request));
    HolderKey(s, id, KeyOf(server, request));
    if Named(s.actors[id]) {
      KeysSeparateInstances(server, request, ServerOf(s.actors[id]), RequestOf(s.actors[id]));
    }
  }

  /**
   * A backup names a mode, not an instance. So a full and an incremental backup
   * of one server do not exclude each other, while a full backup and a deploy
   * of an instance called `full` do.
   */
  lemma BackupsLockTheirMode(server: string)
    ensures var full := CommandRequest(Backup, Some("full"), None, false, None);
            var incremental := full.(argument := Some("incremental"));
            var deploy := full.(command := Deploy);
            KeyOf(server, full) != KeyOf(server, incremental) && KeyOf(server, full) == KeyOf(server, deploy)
  {
    var full := CommandRequest(Backup, Some("full"), None, false, None);
    KeysSeparateInstances(server, full, server, full.(argument := Some("incremental")));
    assert |"full"| != |"incremental"|;
  }

  function BackupOf(mode: string): CommandRequest {
    CommandRequest(Backup, Some(mode), None, false, None)
  }

  lemma OneTurn(mode: Rejections, s: System, t: Turn, turns: seq<Turn>)
    ensures Run(mode, s, [t] + turns) == Run(mode, Step(mode, s, t), turns)
  {
    assert ([t] + turns)[1..] == turns;
  }

  lemma FreeCallStarts(mode: Rejections, s: System, id: nat, server: string, request: CommandRequest, target: Target)
    requires s.up && id !in s.actors && Mutating(request) && Startable(request, target) && KeyOf(server, request) !in s.running
    ensures var after := Step(mode, Step(mode, s, Subscribe(id, server, request)), CallTurn(id, Resolves(target)));
            && after.up && after.running == s.running + {KeyOf(server, request)}
            && after.actors.Keys == s.actors.Keys + {id} && Holds(after, id, KeyOf(server, request))
            && forall other :: other in s.actors && other != id ==> after.actors[other] == s.actors[other]
  {
  }

  /** The run: two live holders backing up one server at once. */
  lemma BackupsOverlap(mode: Rejections, server: string, target: Target)
    requires target.keyReadable && SafePath(target.stackPath)
    ensures var full, incremental := BackupOf("full"), BackupOf("incremental");
            var end := Run(mode, IDLE, [Subscribe(0, server, full)] + ([CallTurn(0, Resolves(target))]
                                       + ([Subscribe(1, server, incremental)] + ([CallTurn(1, Resolves(target))] + []))));
            end.up && Holds(end, 0, KeyOf(server, full)) && Holds(end, 1, KeyOf(server, incremental))
  {
    var full, incremental := BackupOf("full"), BackupOf("incremental");
    var rest := [CallTurn(1, Resolves(target))] + [];
    BackupsLockTheirMode(server);
    FreeCallStarts(mode, IDLE, 0, server, full, target);
    var half := Step(mode, Step(mode, IDLE, Subscribe(0, server, full)), CallTurn(0, Resolves(target)));
    FreeCallStarts(mode, half, 1, server, incremental, target);
    OneTurn(mode, IDLE, Subscribe(0, server, full), [CallTurn(0, Resolves(target))] + ([Subscribe(1, server, incremental)] + rest));
    OneTurn(mode, Step(mode, IDLE, Subscribe(0, server, full)), CallTurn(0, Resolves(target)), [Subscribe(1, server, incremental)] + rest);
    OneTurn(mode, half, Subscribe(1, server, incremental), rest);
    OneTurn(mode, Step(mode, half, Subscribe(1, server, incremental)), CallTurn(1, Resolves(target)), []);
  }

  // ---------------------------------------------------------------------------
  // What that means for one action, over a whole run.

  /** The SSH session had the last word, not a refusal and not the viewer leaving. */
  predicate EndedBySession(seen: seq<Note<CallError>>) {
    |seen| > 0 && (seen[|seen| - 1].Completed? || (seen[|seen| - 1].Failed? && seen[|seen| - 1].error.FromSsh?))
  }

  predicate SawExitZero(seen: seq<Note<CallError>>) {
    |seen| > 1 && seen[|seen| - 1].Completed? && seen[|seen| - 2] == Next(Exit(0))
  }

  /**
   * In any interleaving, a viewer sees output and then at most one ending, and
   * the action leaves at most one audit record: one exactly when it mutates
   * and its SSH session ended, marked successful exactly when the exit code
   * the viewer saw was 0.
   */
  lemma AuditedOnce(mode: Rejections, turns: seq<Turn>, id: nat)
    requires id in Run(mode, IDLE, turns).actors && Run(mode, IDLE, turns).actors[id].Call?
    ensures var c := Run(mode, IDLE, turns).actors[id].state;
            && WellShaped(c.seen)
            && (|c.audit| == if Mutating(c.request) && EndedBySession(c.seen) then 1 else 0)
            && (|c.audit| == 1 ==> (c.audit[0].succeeded <==> SawExitZero(c.seen)))
  {
    LocksAreExclusive(mode, IDLE, turns);
  }

  /** A call that is over holds nothing, says nothing, records nothing and starts nothing, whatever still happens to it. */
  predicate Gone(c: CallState) {
    c.closed && c.cancelled && (c.inner.None? || c.inner.value == OVER)
  }

  lemma GoneStaysGone(running: set<string>, c: CallState, e: CallEvent)
    requires Gone(c) && CallInv(c)
    ensures var after := CallStep(running, c, e);
            after.0 == running && Gone(after.1) && after.1.inner == c.inner
            && after.1.seen == c.seen && after.1.audit == c.audit
  {
    if e.Ssh? && c.inner.Some? && !e.event.Unsubscribed? {
      var step := SshStep(OVER, e.event);
      assert step.0 == OVER && step.1 == [];
    }
  }

  /** A viewer who leaves gives the lock back at once and for good; one who left before the start never starts anything. */
  lemma {:induction false} LeavingIsFinal(mode: Rejections, s: System, id: nat, turns: seq<Turn>)
    requires Inv(s) && id in s.actors && s.actors[id].Call? && Gone(s.actors[id].state)
    ensures var c, after := s.actors[id].state, Run(mode, s, turns).actors;
            && id in after && after[id].Call? && Gone(after[id].state)
            && HeldKey(after[id]) == None
            && after[id].state.inner == c.inner
            && after[id].state.seen == c.seen && after[id].state.audit == c.audit
    decreases |turns|
  {
    if turns != [] {
      var t := turns[0];
      if t.CallTurn? && t.id == id {
        GoneStaysGone(s.running, s.actors[id].state, t.event);
      }
      StepKeepsInv(mode, s, t);
      LeavingIsFinal(mode, Step(mode, s, t), id, turns[1..]);
    }
  }

  lemma LeavingClears(mode: Rejections, s: System, id: nat)
    requires Inv(s) && s.up && id in s.actors && s.actors[id].Call?
    ensures var c, s' := s.actors[id].state, Step(mode, s, CallTurn(id, CallEvent.Leave));
            && Gone(s'.actors[id].state)
            && (c.resolving ==> s'.actors[id].state.inner == None)
            && s'.running == if HeldKey(s.actors[id]).Some? then s.running - {HeldKey(s.actors[id]).value} else s.running
  {
  }

  /** The loser of a conflict is told so, and the winner keeps the lock. */
  lemma LoserFreesNothing(mode: Rejections, s: System, winner: nat, loser: nat, target: Target)
    requires Inv(s) && s.up && loser in s.actors && s.actors[loser].Call?
    requires var c := s.actors[loser].state;
             c.resolving && !c.closed && Mutating(c.request) && Holds(s, winner, KeyOf(c.server, c.request))
    ensures var key := KeyOf(s.actors[loser].state.server, s.actors[loser].state.request);
            var s' := Step(mode, s, CallTurn(loser, Resolves(target)));
            && s'.up && s'.running == s.running && Holds(s', winner, key)
            && HeldKey(s'.actors[loser]) == None && s'.actors[loser].state.inner == None
            && s'.actors[loser].state.seen == [Failed(Conflict(key))]
  {
    assert winner != loser;
  }

  // ---------------------------------------------------------------------------
  // The start that throws.

  /** The turns that end the process. */
  predicate Fatal(s: System, t: Turn) {
    && s.up && t.CallTurn? && t.event.Resolves? && t.id in s.actors && s.actors[t.id].Call?
    && var c := s.actors[t.id].state;
       && c.resolving && !c.closed && !Startable(c.request, t.event.target)
       && !(Mutating(c.request) && KeyOf(c.server, c.request) in s.running)
  }

  lemma StepEndsIffFatal(s: System, t: Turn)
    requires Inv(s) && s.up
    ensures !Step(EndTheProcess, s, t).up <==> Fatal(s, t)
  {
  }

  lemma {:induction false} DownStaysDown(mode: Rejections, s: System, turns: seq<Turn>)
    requires !s.up
    ensures Run(mode, s, turns) == s
    decreases |turns|
  {
    if turns != [] {
      DownStaysDown(mode, s, turns[1..]);
    }
  }

  predicate FatalAt(s: System, turns: seq<Turn>, k: nat) {
    k < |turns| && Fatal(Run(EndTheProcess, s, turns[..k]), turns[k])
  }

  lemma {:induction false} RunEndsIffFatal(s: System, turns: seq<Turn>)
    requires Inv(s) && s.up
    ensures !Run(EndTheProcess, s, turns).up <==> exists k: nat :: FatalAt(s, turns, k)
    decreases |turns|
  {
    if turns != [] {
      var next, rest := Step(EndTheProcess, s, turns[0]), turns[1..];
      StepKeepsInv(EndTheProcess, s, turns[0]);
      StepEndsIffFatal(s, turns[0]);
      if !next.up {
        DownStaysDown(EndTheProcess, next, rest);
        assert FatalAt(s, turns, 0);
      } else {
        RunEndsIffFatal(next, rest);
        if k: nat :| FatalAt(next, rest, k) {
          LaterFatal(s, turns, k);
        }
        if k: nat :| FatalAt(s, turns, k) {
          assert k != 0;
          LaterFatal(s, turns, k - 1);
        }
      }
    }
  }

  lemma LaterFatal(s: System, turns: seq<Turn>, k: nat)
    requires turns != []
    ensures FatalAt(s, turns, k + 1) <==> FatalAt(Step(EndTheProcess, s, turns[0]), turns[1..], k)
  {
    if k + 1 < |turns| {
      assert turns[..k + 1][1..] == turns[1..][..k];
    }
  }

  /**
   * In every interleaving the process ends if and only if some call, reading or
   * mutating, comes to a start whose argv cannot be built or whose key cannot be
   * read, its viewer still there and its key free.
   */
  lemma ProcessEndsIff(turns: seq<Turn>)
    ensures !Run(EndTheProcess, IDLE, turns).up <==> exists k: nat :: FatalAt(IDLE, turns, k)
  {
    RunEndsIffFatal(IDLE, turns);
  }

  /** A call in progress when the process ends: cut, with no ending, no record and no lock. */
  predicate CutShort(c: CallState, after: CallState) {
    && after.closed && after.seen == c.seen && after.audit == c.audit == [] && OutputOnly(after.seen)
    && after.lockedKey == None && (after.inner.None? || after.inner.value == OVER)
  }

  /**
   * What everyone else loses to such a turn, whatever still happens: every lock
   * is gone, every call in progress is cut with no ending told to its viewer and
   * no audit record, and every section stops where it is.
   */
  lemma {:induction false} EndTakesEveryone(s: System, t: Turn, turns: seq<Turn>, id: nat)
    requires Inv(s) && Fatal(s, t) && id in s.actors && id != t.id
    ensures var after := Run(EndTheProcess, Step(EndTheProcess, s, t), turns);
            && after.running == {} && id in after.actors
            && match s.actors[id] {
                 case Call(c) => after.actors[id].Call? && if c.closed then after.actors[id].state == c else CutShort(c, after.actors[id].state)
                 case Section(server, request, _) => after.actors[id] == Section(server, request, false)
               }
  {
    DownStaysDown(EndTheProcess, Step(EndTheProcess, s, t), turns);
  }

  /** The call itself ends no better: its viewer is told nothing. */
  lemma {:induction false} EndTellsNobody(s: System, t: Turn, turns: seq<Turn>)
    requires Inv(s) && Fatal(s, t)
    ensures var after := Run(EndTheProcess, Step(EndTheProcess, s, t), turns).actors;
            && t.id in after && after[t.id].Call? && after[t.id].state.closed
            && after[t.id].state.seen == [] && after[t.id].state.audit == []
  {
    DownStaysDown(EndTheProcess, Step(EndTheProcess, s, t), turns);
  }

  /** The inputs that do it: a deploy of a version with a capital letter, and reading logs with any version at all. */
  lemma BadVersionEndsTheProcess(server: string, instance: string, version: string, target: Target)
    requires SafeName(instance)
    ensures var deploy := CommandRequest(Deploy, Some(instance), Some("V2"), false, None);
            var logs := CommandRequest(Logs, Some(instance), Some(version), false, None);
            && !Run(EndTheProcess, IDLE, [Subscribe(0, server, deploy), CallTurn(0, Resolves(target))]).up
            && !Run(EndTheProcess, IDLE, [Subscribe(0, server, logs), CallTurn(0, Resolves(target))]).up
  {
    assert !SafeName("V2");
    UnstartableEndsTheProcess(server, CommandRequest(Deploy, Some(instance), Some("V2"), false, None), target);
    UnstartableEndsTheProcess(server, CommandRequest(Logs, Some(instance), Some(version), false, None), target);
  }

  lemma UnstartableEndsTheProcess(server: string, request: CommandRequest, target: Target)
    requires !Startable(request, target)
    ensures !Run(EndTheProcess, IDLE, [Subscribe(0, server, request), CallTurn(0, Resolves(target))]).up
  {
    var turns := [Subscribe(0, server, request), CallTurn(0, Resolves(target))];
    var first := Step(EndTheProcess, IDLE, turns[0]);
    assert first == System({}, map[0 := Call(Subscribed(server, request))], true);
    assert turns[1..] == [turns[1]] && turns[1..][1..] == [];
    assert Run(EndTheProcess, first, turns[1..]) == Run(EndTheProcess, Step(EndTheProcess, first, turns[1]), []);
  }

  // ---------------------------------------------------------------------------
  // If rejections were only warned about.

  /** A call that holds the lock, has no SSH session and has been told nothing. */
  predicate Stalled(c: CallState, key: string) {
    !c.closed && !c.resolving && c.inner == None && c.lockedKey == Some(key) && c.seen == []
  }

  /** The mutating call whose start threw would then keep its lock. */
  lemma ThrownStartStalls(s: System, t: Turn)
    requires Inv(s) && Fatal(s, t) && Mutating(s.actors[t.id].state.request)
    ensures var c := s.actors[t.id].state;
            var after := Step(OnlyWarn, s, t).actors;
            t.id in after && after[t.id].Call? && Stalled(after[t.id].state, KeyOf(c.server, c.request))
  {
  }

  /** And nothing but its viewer leaving would ever free it. */
  lemma {:induction false} StallLasts(s: System, id: nat, key: string, turns: seq<Turn>)
    requires Inv(s) && s.up && id in s.actors && s.actors[id].Call? && Stalled(s.actors[id].state, key)
    requires forall k :: 0 <= k < |turns| ==> turns[k] != CallTurn(id, CallEvent.Leave)
    ensures var after := Run(OnlyWarn, s, turns);
            id in after.actors && after.actors[id] == s.actors[id] && key in after.running
    decreases |turns|
  {
    assert Holds(s, id, key);
    if turns != [] {
      var t := turns[0];
      StepKeepsInv(OnlyWarn, s, t);
      assert Step(OnlyWarn, s, t).actors[id] == s.actors[id];
      assert Holds(Step(OnlyWarn, s, t), id, key);
      StallLasts(Step(OnlyWarn, s, t), id, key, turns[1..]);
    }
  }
}
