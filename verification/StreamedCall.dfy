/**
 * One streamed action: `ActionsService.stream`
 * (`backend/src/actions/actions.service.ts`), turn by turn. It waits for the
 * target, takes the instance's lock, opens the SSH session, passes on what it
 * says, writes the audit record and lets go of the lock.
 *
 * Each method is one turn of the event loop; the `await` is the gap between
 * `StreamCall`'s construction and `AfterResolve`.
 */
module StreamedCall {
  import opened Wrappers
  import opened LockKey
  import opened SshCommands
  import opened SshSession

  datatype CallError = Unresolved(reason: string) | Conflict(key: string) | FromSsh(error: SshError)

  datatype AuditRecord = AuditRecord(exitCode: Option<int>, error: Option<SshError>, succeeded: bool)

  datatype Target = Target(stackPath: string, keyReadable: bool)

  /** `inner` is the SSH session once there is one; `seen` is what the viewer was handed. */
  datatype CallState = CallState(
    server: string, request: CommandRequest, resolving: bool, lockedKey: Option<string>, exitCode: Option<int>,
    cancelled: bool, inner: Option<SshState>, closed: bool,
    seen: seq<Note<CallError>>, audit: seq<AuditRecord>)

  datatype CallEvent =
    | ResolveFails(reason: string)
    | Resolves(target: Target)
    | Ssh(event: SshEvent)
    | Leave

  /** The panel's own name of a command, which is not always the subcommand it sends. */
  function NameOf(command: CommandName): string {
    match command
    case AddPreview => "addPreview"
    case RetireWithData => "retireWithData"
    case SecretsSet => "secretsSet"
    case _ => Spec(command).subcommand
  }

  /** `resolve`'s key: the argument, or the command itself when there is none. */
  function KeyOf(server: string, request: CommandRequest): string {
    Key(server, if request.argument.Some? then request.argument.value else NameOf(request.command))
  }

  function Subscribed(server: string, request: CommandRequest): CallState {
    CallState(server, request, true, None, None, false, None, false, [], [])
  }

  predicate Mutating(request: CommandRequest) {
    Spec(request.command).kind == Mutate
  }

  /** Whether `SshService.stream` returns an observable at all rather than throwing. */
  predicate Startable(request: CommandRequest, target: Target) {
    Built(request, target.stackPath).Ok? && target.keyReadable
  }

  // ---------------------------------------------------------------------------
  // What a turn does, to the call and to the set of locked keys.

  function Teardown(running: set<string>, c: CallState): (set<string>, CallState) {
    (if c.lockedKey.Some? then running - {c.lockedKey.value} else running,
     c.(cancelled := true,
        closed := true,
        inner := if c.inner.Some? then Some(SshStep(c.inner.value, Unsubscribed).0) else None,
        lockedKey := None))
  }

  function End(running: set<string>, c: CallState, note: Note<CallError>): (set<string>, CallState) {
    if c.closed then (running, c) else Teardown(running, c.(seen := c.seen + [note]))
  }

  function Record(c: CallState, error: Option<SshError>): CallState {
    if Mutating(c.request)
    then c.(audit := c.audit + [AuditRecord(c.exitCode, error, error == None && c.exitCode == Some(0))])
    else c
  }

  function Handle(running: set<string>, c: CallState, note: Note<SshError>): (set<string>, CallState) {
    match note
    case Next(event) =>
      var c' := if event.Exit? then c.(exitCode := Some(event.code)) else c;
      (running, if c.closed then c' else c'.(seen := c.seen + [Next(event)]))
    case Failed(error) => End(running, Record(c, Some(error)), Failed(FromSsh(error)))
    case Completed => End(running, Record(c, None), Completed)
  }

  function HandleAll(running: set<string>, c: CallState, notes: seq<Note<SshError>>): (set<string>, CallState)
    decreases |notes|
  {
    if notes == [] then (running, c)
    else
      var step := Handle(running, c, notes[0]);
      HandleAll(step.0, step.1, notes[1..])
  }

  function Acquire(running: set<string>, c: CallState, key: string, target: Target): (set<string>, CallState) {
    var locks := Mutating(c.request);
    var held := if locks then running + {key} else running;
    var c' := c.(resolving := false, lockedKey := if locks then Some(key) else c.lockedKey);
    if c.cancelled then (if c'.lockedKey.Some? then held - {c'.lockedKey.value} else held, c')
    else (held, c'.(inner := if Startable(c.request, target)
                             then Some(Opened(Spec(c.request.command).timeoutMs.Some?)) else c.inner))
  }

  function CallStep(running: set<string>, c: CallState, e: CallEvent): (set<string>, CallState) {
    match e
    case ResolveFails(reason) =>
      if !c.resolving then (running, c)
      else End(running, c.(resolving := false), Failed(Unresolved(reason)))
    case Resolves(target) =>
      var key := KeyOf(c.server, c.request);
      if !c.resolving then (running, c)
      else if Mutating(c.request) && key in running then
        End(running, c.(resolving := false), Failed(Conflict(key)))
      else Acquire(running, c, key, target)
    case Ssh(event) =>
      if c.inner.None? || event.Unsubscribed? then (running, c)
      else
        var step := SshStep(c.inner.value, event);
        HandleAll(running, c.(inner := Some(step.0)), step.1)
    case Leave => if c.closed then (running, c) else Teardown(running, c)
  }

  /**
   * The turn ends in an exception: the target is there, the viewer is still
   * there, the key is free, and `SshService.stream` throws. The asynchronous
   * function it leaves is one nobody awaits.
   */
  predicate Rejects(running: set<string>, c: CallState, e: CallEvent) {
    e.Resolves? && c.resolving && !c.cancelled && !Startable(c.request, e.target)
    && !(Mutating(c.request) && KeyOf(c.server, c.request) in running)
  }

  // ---------------------------------------------------------------------------
  // The objects.

  /** The one lock set, shared by every streamed action and every `withLock` section. */
  class ActionsService {
    var running: set<string>

    constructor ()
      ensures running == {}
    {
      running := {};
    }

    /** `withLock`, up to the start of the work: refuses, or takes the key. */
    method Enter(key: string) returns (granted: bool)
      modifies this
      ensures granted <==> key !in old(running)
      ensures running == old(running) + {key}
    {
      granted := key !in running;
      if granted {
        running := running + {key};
      }
      assert key in running;
    }

    /** Its `finally`, whether the work succeeded or threw. */
    method Leave(key: string)
      modifies this
      ensures running == old(running) - {key}
    {
      running := running - {key};
    }
  }

  class StreamCall {
    const service: ActionsService
    const server: string
    const request: CommandRequest
    var resolving: bool
    var lockedKey: Option<string>
    var exitCode: Option<int>
    var cancelled: bool
    var inner: SshStream?
    var closed: bool
    var seen: seq<Note<CallError>>
    var audit: seq<AuditRecord>

    constructor (service: ActionsService, server: string, request: CommandRequest)
      ensures this.service == service && State() == Subscribed(server, request)
    {
      this.service, this.server, this.request := service, server, request;
      resolving, lockedKey, exitCode := true, None, None;
      cancelled, inner, closed := false, null, false;
      seen, audit := [], [];
    }

    function State(): CallState
      reads this, inner
    {
      CallState(server, request, resolving, lockedKey, exitCode, cancelled,
                if inner == null then None else Some(inner.State()), closed, seen, audit)
    }

    method TearDown()
      modifies this, service, inner
      ensures inner == old(inner)
      ensures (service.running, State()) == Teardown(old(service.running), old(State()))
    {
      closed := true;
      cancelled := true;
      if inner != null {
        var ignored := inner.On(Unsubscribed);
      }
      if lockedKey.Some? {
        service.Leave(lockedKey.value);
        lockedKey := None;
      }
    }

    /** `subscriber.error` and `subscriber.complete`: the last word, then the teardown. */
    method LastWord(note: Note<CallError>)
      modifies this, service, inner
      ensures inner == old(inner)
      ensures (service.running, State()) == End(old(service.running), old(State()), note)
    {
      if !closed {
        seen := seen + [note];
        TearDown();
      }
    }

    method RecordIfMutating(error: Option<SshError>)
      modifies this`audit
      ensures inner == old(inner) && State() == Record(old(State()), error)
    {
      if Mutating(request) {
        audit := audit + [AuditRecord(exitCode, error, error == None && exitCode == Some(0))];
      }
    }

    /** The three handlers given to the SSH observable. */
    method HandleNote(note: Note<SshError>)
      modifies this, service, inner
      ensures inner == old(inner)
      ensures (service.running, State()) == Handle(old(service.running), old(State()), note)
    {
      match note {
        case Next(event) =>
          if event.Exit? {
            exitCode := Some(event.code);
          }
          if !closed {
            seen := seen + [Next(event)];
          }
        case Failed(error) =>
          RecordIfMutating(Some(error));
          LastWord(Failed(FromSsh(error)));
        case Completed =>
          RecordIfMutating(None);
          LastWord(Completed);
      }
    }

    /** The turn in which `resolve` rejects. */
    method AfterRejection(reason: string)
      modifies this, service, inner
      ensures (service.running, State()) == CallStep(old(service.running), old(State()), ResolveFails(reason))
    {
      if resolving {
        resolving := false;
        LastWord(Failed(Unresolved(reason)));
      }
    }

    /**
     * The turn in which `resolve` returns: check, lock, and start, with no
     * `await` in between. `rejected` is whether the start threw.
     */
    method AfterResolve(target: Target) returns (rejected: bool)
      modifies this, service, inner
      ensures (service.running, State()) == CallStep(old(service.running), old(State()), Resolves(target))
      ensures rejected <==> Rejects(old(service.running), old(State()), Resolves(target))
    {
      rejected := false;
      if !resolving {
        return;
      }
      resolving := false;
      var key := KeyOf(server, request);
      if Mutating(request) && key in service.running {
        LastWord(Failed(Conflict(key)));
        return;
      }
      if Mutating(request) {
        var granted := service.Enter(key);
        lockedKey := Some(key);
      }
      if cancelled {
        if lockedKey.Some? {
          service.Leave(lockedKey.value);
        }
        return;
      }
      if !Startable(request, target) {
        return true;
      }
      inner := new SshStream(Spec(request.command).timeoutMs.Some?);
    }

    /** Something happened to the SSH session. */
    method OnSsh(event: SshEvent)
      modifies this, service, inner
      ensures (service.running, State()) == CallStep(old(service.running), old(State()), Ssh(event))
    {
      if inner == null || event.Unsubscribed? {
        return;
      }
      var notes := inner.On(event);
      ghost var running, state := service.running, State();
      var i := 0;
      while i < |notes|
        invariant 0 <= i <= |notes| && inner == old(inner)
        invariant HandleAll(service.running, State(), notes[i..]) == HandleAll(running, state, notes)
      {
        assert notes[i..][1..] == notes[i + 1..];
        HandleNote(notes[i]);
        i := i + 1;
      }
      assert notes[i..] == [];
    }

    method Unsubscribe()
      modifies this, service, inner
      ensures (service.running, State()) == CallStep(old(service.running), old(State()), CallEvent.Leave)
    {
      if !closed {
        TearDown();
      }
    }
  }
}
