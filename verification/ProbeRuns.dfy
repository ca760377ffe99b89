/**
 * What `domains.json` holds while refreshes overlap
 * (`backend/src/registration/targets.service.ts`): what one query once selected,
 * unless a longer list went into it before, and not always what the cache says
 * now. How a list is rendered is a parameter: the results hold whatever it is.
 */
module ProbeRuns {
  import opened Wrappers
  import opened Inventory
  import opened ProbeTargets
  import opened Refresh
  import opened RefreshRuns

  // ---------------------------------------------------------------------------
  // Which query the file comes from, told from the turns.

  /** Turn `k` is some refresh's query of the rows. */
  predicate IsQuery(w: World, turns: seq<Turn>, k: nat) {
    k < |turns| && Happens(Run(w, turns[..k]), turns[k]) && turns[k].turn.Queries?
  }

  /** The list that query makes. */
  function ListAt(w: World, turns: seq<Turn>, k: nat): seq<Target>
    requires IsQuery(w, turns, k)
  {
    FirstClaims(Claims(Run(w, turns[..k]).shared.db, turns[k].turn.order))
  }

  function QueryOf(w: World, turns: seq<Turn>, id: nat): (k: Option<nat>)
    ensures k.Some? ==> k.value < |turns|
    decreases |turns|
  {
    if turns == [] then None
    else
      var n := |turns| - 1;
      if Happens(Run(w, turns[..n]), turns[n]) && turns[n].turn.Queries? && turns[n].id == id then Some(n)
      else QueryOf(w, turns[..n], id)
  }

  /** This turn opens file `k`. */
  predicate OpensAt(w: World, t: Turn, k: nat) {
    Happens(w, t) && t.turn.Opens? && OpenedAs(w.shared) == k
  }

  /** This turn writes a list into it. */
  predicate FillsAt(w: World, t: Turn, k: nat) {
    Happens(w, t) && t.turn.Fills? && w.refreshes[t.id].progress.handle == k
  }

  /** The lists that have gone into file `k` since it was last opened in this run, if it was. */
  function WrittenSince(w: World, turns: seq<Turn>, k: nat): Option<Content>
    decreases |turns|
  {
    if turns == [] then None
    else
      var n := |turns| - 1;
      var before, t, so := Run(w, turns[..n]), turns[n], WrittenSince(w, turns[..n], k);
      if OpensAt(before, t, k) then Some([])
      else if FillsAt(before, t, k) && so.Some? then Some(so.value + [before.refreshes[t.id].progress.targets])
      else so
  }

  /** The query behind the last of them. */
  function LastFill(w: World, turns: seq<Turn>, k: nat): (q: Option<nat>)
    ensures q.Some? ==> q.value < |turns|
    decreases |turns|
  {
    if turns == [] then None
    else
      var n := |turns| - 1;
      if FillsAt(Run(w, turns[..n]), turns[n], k) then QueryOf(w, turns[..n], turns[n].id) else LastFill(w, turns[..n], k)
  }

  /** Something was written, and none of it is longer than the last list. */
  predicate NoneLonger(render: seq<Target> -> string, content: Content) {
    content != [] && forall i :: 0 <= i < |content| ==> |render(content[i])| <= |render(content[|content| - 1])|
  }

  /** The query behind `domains.json`, if it was written in this run and holds one list. */
  function PublishedBy(render: seq<Target> -> string, w: World, turns: seq<Turn>): (q: Option<nat>)
    ensures q.Some? ==> q.value < |turns|
  {
    var file := Run(w, turns).shared.file;
    if file.Some? && WrittenSince(w, turns, file.value).Some? && NoneLonger(render, WrittenSince(w, turns, file.value).value)
    then LastFill(w, turns, file.value) else None
  }

  function FileContent(s: Shared): Option<Content> {
    if s.file.Some? && s.file.value < |s.contents| then Some(s.contents[s.file.value]) else None
  }

  /** The last list written to the file, if the bytes in it are that list's and nothing else. */
  function Listing(render: seq<Target> -> string, s: Shared): Option<seq<Target>> {
    match FileContent(s)
    case None => None
    case Some(content) =>
      if content != [] && TextOf(render, content) == render(content[|content| - 1]) then Some(content[|content| - 1]) else None
  }

  /** These targets are what the query at `k` made. */
  predicate From(w: World, turns: seq<Turn>, k: Option<nat>, targets: seq<Target>) {
    k.Some? && IsQuery(w, turns, k.value) && targets == ListAt(w, turns, k.value)
  }

  lemma StillFrom(w: World, turns: seq<Turn>, k: Option<nat>, targets: seq<Target>)
    requires turns != [] && From(w, turns[..|turns| - 1], k, targets)
    ensures From(w, turns, k, targets)
  {
    assert turns[..|turns| - 1][..k.value] == turns[..k.value];
  }

  /** A list in hand, from the query to the write. */
  predicate Holding(p: Progress) {
    p.Queried? || p.Opened?
  }

  lemma {:induction false} HandIsAQuery(w: World, turns: seq<Turn>, id: nat)
    requires Fresh(w) && id in Run(w, turns).refreshes && Holding(Run(w, turns).refreshes[id].progress)
    ensures From(w, turns, QueryOf(w, turns, id), Run(w, turns).refreshes[id].progress.targets)
    decreases |turns|
  {
    var n := |turns| - 1;
    var before, t := Run(w, turns[..n]), turns[n];
    if !(Happens(before, t) && t.turn.Queries? && t.id == id) {
      StepKeepsHand(before, t, id);
      HandIsAQuery(w, turns[..n], id);
      StillFrom(w, turns, QueryOf(w, turns[..n], id), before.refreshes[id].progress.targets);
    }
  }

  lemma StepKeepsHand(w: World, t: Turn, id: nat)
    requires id in Step(w, t).refreshes && Holding(Step(w, t).refreshes[id].progress)
    requires !(Happens(w, t) && t.turn.Queries? && t.id == id)
    ensures id in w.refreshes && Holding(w.refreshes[id].progress)
    ensures w.refreshes[id].progress.targets == Step(w, t).refreshes[id].progress.targets
  {
  }

  /** No file goes away, and the two names stand for files that are there. */
  predicate Sound(s: Shared) {
    && (s.temporary.Some? ==> s.temporary.value < |s.contents|)
    && (s.file.Some? ==> s.file.value < |s.contents|)
  }

  lemma StepIsSound(w: World, t: Turn)
    requires Sound(w.shared)
    ensures Sound(Step(w, t).shared) && |w.shared.contents| <= |Step(w, t).shared.contents|
  {
  }

  lemma {:induction false} RunsAreSound(w: World, turns: seq<Turn>)
    requires Fresh(w)
    ensures Sound(Run(w, turns).shared) && |w.shared.contents| <= |Run(w, turns).shared.contents|
    decreases |turns|
  {
    if turns != [] {
      var n := |turns| - 1;
      RunsAreSound(w, turns[..n]);
      StepIsSound(Run(w, turns[..n]), turns[n]);
    }
  }

  lemma {:induction false} OpenedIsThere(w: World, turns: seq<Turn>, k: nat)
    requires Fresh(w) && WrittenSince(w, turns, k).Some?
    ensures k < |Run(w, turns).shared.contents|
    decreases |turns|
  {
    var n := |turns| - 1;
    RunsAreSound(w, turns[..n]);
    StepIsSound(Run(w, turns[..n]), turns[n]);
    if !OpensAt(Run(w, turns[..n]), turns[n], k) {
      OpenedIsThere(w, turns[..n], k);
    }
  }

  /** A handle is on a file this run has opened. */
  lemma {:induction false} HandleIsOpened(w: World, turns: seq<Turn>, id: nat)
    requires Fresh(w) && id in Run(w, turns).refreshes && Run(w, turns).refreshes[id].progress.Opened?
    ensures WrittenSince(w, turns, Run(w, turns).refreshes[id].progress.handle).Some?
    decreases |turns|
  {
    var n := |turns| - 1;
    var before, t := Run(w, turns[..n]), turns[n];
    if !(Happens(before, t) && t.turn.Opens? && t.id == id) {
      assert id in before.refreshes && before.refreshes[id] == Run(w, turns).refreshes[id];
      HandleIsOpened(w, turns[..n], id);
    }
  }

  /** What the turns say has gone into file `k`; the last list is some query's. */
  predicate Told(w: World, turns: seq<Turn>, k: nat, content: Content) {
    match WrittenSince(w, turns, k)
    case None => k < |w.shared.contents| && content == w.shared.contents[k]
    case Some(lists) =>
      content == lists && (lists != [] ==> From(w, turns, LastFill(w, turns, k), lists[|lists| - 1]))
  }

  lemma StepContents(w: World, t: Turn, k: nat)
    requires Sound(w.shared) && k < |Step(w, t).shared.contents|
    ensures !OpensAt(w, t, k) ==> k < |w.shared.contents|
    ensures Step(w, t).shared.contents[k] ==
            if OpensAt(w, t, k) then []
            else if FillsAt(w, t, k) then w.shared.contents[k] + [w.refreshes[t.id].progress.targets]
            else w.shared.contents[k]
  {
  }

  lemma FilledIsTold(w: World, turns: seq<Turn>, t: Turn, k: nat)
    requires Fresh(w) && FillsAt(Run(w, turns), t, k) && Told(w, turns, k, Run(w, turns).shared.contents[k])
    ensures Told(w, turns + [t], k, Run(w, turns).shared.contents[k] + [Run(w, turns).refreshes[t.id].progress.targets])
  {
    OneMore(w, turns, t);
    HandIsAQuery(w, turns, t.id);
    HandleIsOpened(w, turns, t.id);
    StillFrom(w, turns + [t], QueryOf(w, turns, t.id), Run(w, turns).refreshes[t.id].progress.targets);
  }

  lemma UntouchedStaysWritten(w: World, turns: seq<Turn>, t: Turn, k: nat)
    requires !OpensAt(Run(w, turns), t, k) && !FillsAt(Run(w, turns), t, k)
    ensures WrittenSince(w, turns + [t], k) == WrittenSince(w, turns, k)
    ensures LastFill(w, turns + [t], k) == LastFill(w, turns, k)
  {
    OneMore(w, turns, t);
  }

  lemma UntouchedIsTold(w: World, turns: seq<Turn>, t: Turn, k: nat, content: Content)
    requires Told(w, turns, k, content) && !OpensAt(Run(w, turns), t, k) && !FillsAt(Run(w, turns), t, k)
    ensures Told(w, turns + [t], k, content)
  {
    UntouchedStaysWritten(w, turns, t, k);
    if WrittenSince(w, turns, k).Some? && content != [] {
      assert (turns + [t])[..|turns|] == turns;
      StillFrom(w, turns + [t], LastFill(w, turns, k), content[|content| - 1]);
    }
  }

  /**
   * At every moment of every run, what has gone into each file is what the turns
   * say, and the last of it is one query's list.
   */
  lemma {:induction false} ContentsAreTold(w: World, turns: seq<Turn>, k: nat)
    requires Fresh(w) && k < |Run(w, turns).shared.contents|
    ensures Told(w, turns, k, Run(w, turns).shared.contents[k])
    decreases |turns|
  {
    if turns != [] {
      var n := |turns| - 1;
      var before, t := Run(w, turns[..n]), turns[n];
      assert turns == turns[..n] + [t];
      RunsAreSound(w, turns[..n]);
      StepContents(before, t, k);
      if !OpensAt(before, t, k) {
        ContentsAreTold(w, turns[..n], k);
        if FillsAt(before, t, k) {
          FilledIsTold(w, turns[..n], t, k);
        } else {
          UntouchedIsTold(w, turns[..n], t, k, before.shared.contents[k]);
        }
      }
    }
  }

  lemma OnlyList(targets: seq<Target>)
    ensures [] + [targets] == [targets]
  {
  }

  predicate Publishes(w: World, t: Turn) {
    Happens(w, t) && t.turn.Renames? && w.shared.temporary.Some?
  }

  /** Once a refresh has opened the temporary file, whatever has that name was opened in this run. */
  lemma {:induction false} TemporaryWasOpened(w: World, turns: seq<Turn>, id: nat)
    requires Fresh(w) && id in Run(w, turns).refreshes
    requires Run(w, turns).refreshes[id].progress.Opened? || Run(w, turns).refreshes[id].progress.Written?
    requires Run(w, turns).shared.temporary.Some?
    ensures WrittenSince(w, turns, Run(w, turns).shared.temporary.value).Some?
    decreases |turns|
  {
    var n := |turns| - 1;
    var before, t := Run(w, turns[..n]), turns[n];
    RunsAreSound(w, turns[..n]);
    if !(Happens(before, t) && t.turn.Opens?) {
      TemporaryKept(before, t, id);
      TemporaryWasOpened(w, turns[..n], id);
    }
  }

  lemma TemporaryKept(w: World, t: Turn, id: nat)
    requires id in Step(w, t).refreshes && !(Happens(w, t) && t.turn.Opens?)
    requires Step(w, t).refreshes[id].progress.Opened? || Step(w, t).refreshes[id].progress.Written?
    requires Step(w, t).shared.temporary.Some?
    ensures id in w.refreshes && (w.refreshes[id].progress.Opened? || w.refreshes[id].progress.Written?)
    ensures w.shared.temporary == Step(w, t).shared.temporary
  {
  }

  /** A file this run has not opened is `domains.json` only if it was at the start. */
  lemma {:induction false} UntouchedFileWasThere(w: World, turns: seq<Turn>)
    requires Fresh(w)
    ensures var file := Run(w, turns).shared.file;
            file.None? || WrittenSince(w, turns, file.value) == None ==> file == w.shared.file
    decreases |turns|
  {
    if turns != [] {
      var n := |turns| - 1;
      var before, t := Run(w, turns[..n]), turns[n];
      UntouchedFileWasThere(w, turns[..n]);
      if Publishes(before, t) {
        TemporaryWasOpened(w, turns[..n], t.id);
      }
    }
  }

  /** What the turns say of `domains.json`. */
  predicate FileTold(w: World, turns: seq<Turn>, s: Shared) {
    match s.file
    case None => w.shared.file == None
    case Some(k) =>
      && FileContent(s).Some? && Told(w, turns, k, FileContent(s).value)
      && (WrittenSince(w, turns, k) == None ==> w.shared.file == Some(k))
  }

  /**
   * At every moment of every run, `domains.json` is what it was at the start, or
   * a file opened in this run that holds what the turns say.
   */
  lemma FileIsTold(w: World, turns: seq<Turn>)
    requires Fresh(w)
    ensures FileTold(w, turns, Run(w, turns).shared)
  {
    RunsAreSound(w, turns);
    UntouchedFileWasThere(w, turns);
    var file := Run(w, turns).shared.file;
    if file.Some? {
      ContentsAreTold(w, turns, file.value);
    }
  }

  // ---------------------------------------------------------------------------
  // What the bytes are.

  function Longest(render: seq<Target> -> string, content: Content): nat
    decreases |content|
  {
    if content == [] then 0
    else
      var n := |content| - 1;
      if |render(content[n])| > Longest(render, content[..n]) then |render(content[n])| else Longest(render, content[..n])
  }

  lemma {:induction false} LengthIsLongest(render: seq<Target> -> string, content: Content)
    ensures |TextOf(render, content)| == Longest(render, content)
    decreases |content|
  {
    if content != [] {
      LengthIsLongest(render, content[..|content| - 1]);
    }
  }

  lemma {:induction false} LongestIsABound(render: seq<Target> -> string, content: Content, m: nat)
    ensures Longest(render, content) <= m <==> forall i :: 0 <= i < |content| ==> |render(content[i])| <= m
    decreases |content|
  {
    if content != [] {
      var n := |content| - 1;
      LongestIsABound(render, content[..n], m);
      if Longest(render, content) <= m {
        forall i | 0 <= i < |content| ensures |render(content[i])| <= m {
          if i < n { assert content[..n][i] == content[i]; }
        }
      }
      if forall i :: 0 <= i < |content| ==> |render(content[i])| <= m {
        forall i | 0 <= i < n ensures |render(content[..n][i])| <= m {
          assert content[..n][i] == content[i];
        }
        assert |render(content[n])| <= m;
      }
    }
  }

  lemma OverwrittenIsNew(there: string, text: string)
    ensures Overwritten(there, text) == text <==> |there| <= |text|
  {
    if |there| > |text| {
      assert |Overwritten(there, text)| == |there|;
    } else {
      assert Overwritten(there, text) == text;
    }
  }

  lemma NoneLongerBefore(render: seq<Target> -> string, content: Content)
    requires content != []
    ensures var n := |content| - 1;
            NoneLonger(render, content) <==> Longest(render, content[..n]) <= |render(content[n])|
  {
    var n := |content| - 1;
    LongestIsABound(render, content[..n], |render(content[n])|);
    if Longest(render, content[..n]) <= |render(content[n])| {
      forall i | 0 <= i < |content| ensures |render(content[i])| <= |render(content[n])| {
        if i < n { assert content[..n][i] == content[i]; }
      }
    }
    if NoneLonger(render, content) {
      forall i | 0 <= i < n ensures |render(content[..n][i])| <= |render(content[n])| {
        assert content[..n][i] == content[i];
      }
    }
  }

  /** The bytes are the last list's if and only if no longer one was written before it. */
  lemma TextIsLastIffNoneLonger(render: seq<Target> -> string, content: Content)
    requires content != []
    ensures TextOf(render, content) == render(content[|content| - 1]) <==> NoneLonger(render, content)
  {
    var n := |content| - 1;
    LengthIsLongest(render, content[..n]);
    NoneLongerBefore(render, content);
    OverwrittenIsNew(TextOf(render, content[..n]), render(content[n]));
  }

  /**
   * At every moment of every run, a `domains.json` written in it is byte for byte
   * the last list that went into it, some query's, if and only if none that went
   * in since it was last opened is longer; and it is empty if none has.
   */
  lemma FileIsAQuery(render: seq<Target> -> string, w: World, turns: seq<Turn>)
    requires Fresh(w) && Run(w, turns).shared.file.Some?
    requires WrittenSince(w, turns, Run(w, turns).shared.file.value).Some?
    ensures var k, s := Run(w, turns).shared.file.value, Run(w, turns).shared;
            var lists := WrittenSince(w, turns, k).value;
            && FileContent(s) == Some(lists)
            && (lists == [] ==> TextOf(render, lists) == "")
            && (lists != [] ==> From(w, turns, LastFill(w, turns, k), lists[|lists| - 1])
                                && (TextOf(render, lists) == render(lists[|lists| - 1]) <==> NoneLonger(render, lists)))
  {
    FileIsTold(w, turns);
    var lists := WrittenSince(w, turns, Run(w, turns).shared.file.value).value;
    if lists != [] {
      TextIsLastIffNoneLonger(render, lists);
    }
  }

  /** So of what a rename publishes, told of the temporary file. */
  lemma PublishesLastIffNoneLonger(render: seq<Target> -> string, w: World, turns: seq<Turn>, t: Turn)
    requires Fresh(w) && Publishes(Run(w, turns), t)
    ensures var k, after := Run(w, turns).shared.temporary.value, Run(w, turns + [t]).shared;
            && WrittenSince(w, turns, k).Some? && FileContent(after) == WrittenSince(w, turns, k)
            && (Listing(render, after).Some? <==> NoneLonger(render, WrittenSince(w, turns, k).value))
  {
    OneMore(w, turns, t);
    RunsAreSound(w, turns);
    TemporaryWasOpened(w, turns, t.id);
    ContentsAreTold(w, turns, Run(w, turns).shared.temporary.value);
    var lists := WrittenSince(w, turns, Run(w, turns).shared.temporary.value).value;
    if lists != [] {
      TextIsLastIffNoneLonger(render, lists);
    }
  }

  predicate Touches(w: World, t: Turn) {
    Happens(w, t) && (t.turn.Opens? || t.turn.Fills?)
  }

  /** The refresh opens a file at turn `k`, and from then on nobody else opens or writes one. */
  predicate Alone(w: World, turns: seq<Turn>, k: nat, id: nat)
    decreases |turns|
  {
    k < |turns|
    && var n := |turns| - 1;
       var before, t := Run(w, turns[..n]), turns[n];
       if k == n then Happens(before, t) && t.turn.Opens? && t.id == id
       else Alone(w, turns[..n], k, id) && (Touches(before, t) ==> t.id == id)
  }

  /** How far a lone writer has come with its list and the file it opened. */
  predicate LoneProgress(p: Progress, file: nat, targets: seq<Target>, written: Option<Content>) {
    match p
    case Opened(_, hand, handle) => hand == targets && handle == file && written == Some([])
    case Written(_) => written == Some([targets])
    case Finished(Refreshed(_)) => written == Some([targets])
    case Failing(_) => true
    case Finished(NotRefreshed(_)) => true
    case Thrown => true
    case _ => false
  }

  /** What a turn adds to the lists of a file nobody opens. */
  function Grown(w: World, t: Turn, file: nat, written: Option<Content>): Option<Content> {
    if FillsAt(w, t, file) && written.Some? then Some(written.value + [w.refreshes[t.id].progress.targets]) else written
  }

  lemma LoneStep(w: World, t: Turn, id: nat, file: nat, targets: seq<Target>, written: Option<Content>)
    requires id in w.refreshes && LoneProgress(w.refreshes[id].progress, file, targets, written)
    requires Touches(w, t) ==> t.id == id
    ensures id in Step(w, t).refreshes && !OpensAt(w, t, file)
    ensures LoneProgress(Step(w, t).refreshes[id].progress, file, targets, Grown(w, t, file, written))
  {
    OnlyList(targets);
  }

  lemma {:induction false} OpensItsList(w: World, turns: seq<Turn>, k: nat, id: nat)
    requires Alone(w, turns, k, id)
    ensures id in Run(w, turns[..k]).refreshes && Run(w, turns[..k]).refreshes[id].progress.Queried?
    decreases |turns|
  {
    var n := |turns| - 1;
    if k < n {
      assert turns[..n][..k] == turns[..k];
      OpensItsList(w, turns[..n], k, id);
    }
  }

  lemma {:induction false} LoneWriter(w: World, turns: seq<Turn>, k: nat, id: nat, targets: seq<Target>)
    requires Alone(w, turns, k, id)
    requires id in Run(w, turns[..k]).refreshes && Run(w, turns[..k]).refreshes[id].progress.Queried?
    requires targets == Run(w, turns[..k]).refreshes[id].progress.targets
    ensures var file := OpenedAs(Run(w, turns[..k]).shared);
            && id in Run(w, turns).refreshes
            && LoneProgress(Run(w, turns).refreshes[id].progress, file, targets, WrittenSince(w, turns, file))
    decreases |turns|
  {
    var n := |turns| - 1;
    if k < n {
      assert turns[..n][..k] == turns[..k];
      LoneWriter(w, turns[..n], k, id, targets);
      var file := OpenedAs(Run(w, turns[..k]).shared);
      LoneStep(Run(w, turns[..n]), turns[n], id, file, targets, WrittenSince(w, turns[..n], file));
    }
  }

  predicate HasWritten(p: Progress) {
    p.Written? || (p.Finished? && p.result.Refreshed?)
  }

  /** So it takes two to publish a broken file: what a lone writer has written is its own list, whole. */
  lemma LoneWriterWritesWhole(render: seq<Target> -> string, w: World, turns: seq<Turn>, k: nat, id: nat)
    requires Fresh(w) && Alone(w, turns, k, id)
    requires id in Run(w, turns).refreshes && HasWritten(Run(w, turns).refreshes[id].progress)
    ensures id in Run(w, turns[..k]).refreshes && Run(w, turns[..k]).refreshes[id].progress.Queried?
    ensures var file, contents := OpenedAs(Run(w, turns[..k]).shared), Run(w, turns).shared.contents;
            var targets := Run(w, turns[..k]).refreshes[id].progress.targets;
            file < |contents| && contents[file] == [targets] && TextOf(render, contents[file]) == render(targets)
  {
    var file := OpenedAs(Run(w, turns[..k]).shared);
    OpensItsList(w, turns, k, id);
    LoneWriter(w, turns, k, id, Run(w, turns[..k]).refreshes[id].progress.targets);
    OpenedIsThere(w, turns, file);
    ContentsAreTold(w, turns, file);
    var content := Run(w, turns).shared.contents[file];
    TextIsLastIffNoneLonger(render, content);
  }

  // ---------------------------------------------------------------------------
  // When a rename finds nothing.

  /** Since anyone last opened the temporary file, someone has published it. */
  predicate Taken(w: World, turns: seq<Turn>)
    decreases |turns|
  {
    turns != []
    && var n := |turns| - 1;
       var before, t := Run(w, turns[..n]), turns[n];
       if Happens(before, t) && t.turn.Opens? then false
       else if Publishes(before, t) then true
       else Taken(w, turns[..n])
  }

  predicate AnyOpened(w: World, turns: seq<Turn>)
    decreases |turns|
  {
    turns != []
    && var n := |turns| - 1;
       (Happens(Run(w, turns[..n]), turns[n]) && turns[n].turn.Opens?) || AnyOpened(w, turns[..n])
  }

  lemma {:induction false} TemporaryIffNotTaken(w: World, turns: seq<Turn>)
    requires AnyOpened(w, turns)
    ensures Run(w, turns).shared.temporary.Some? <==> !Taken(w, turns)
    decreases |turns|
  {
    var n := |turns| - 1;
    var before, t := Run(w, turns[..n]), turns[n];
    if !(Happens(before, t) && t.turn.Opens?) {
      TemporaryIffNotTaken(w, turns[..n]);
    }
  }

  lemma {:induction false} WriterHasOpened(w: World, turns: seq<Turn>, id: nat)
    requires Fresh(w) && id in Run(w, turns).refreshes
    requires Run(w, turns).refreshes[id].progress.Opened? || Run(w, turns).refreshes[id].progress.Written?
    ensures AnyOpened(w, turns)
    decreases |turns|
  {
    var n := |turns| - 1;
    var before, t := Run(w, turns[..n]), turns[n];
    if !(Happens(before, t) && t.turn.Opens?) {
      assert id in before.refreshes && (before.refreshes[id].progress.Opened? || before.refreshes[id].progress.Written?);
      WriterHasOpened(w, turns[..n], id);
    }
  }

  /**
   * In every run, a refresh that has written its list fails to rename it if and
   * only if another has published the temporary file since anyone last opened it.
   */
  lemma RenameFailsIffTaken(w: World, turns: seq<Turn>, id: nat)
    requires Fresh(w) && id in Run(w, turns).refreshes && Run(w, turns).refreshes[id].progress.Written?
    ensures var after := Step(Run(w, turns), On(id, Renames)).refreshes;
            id in after && (after[id].progress == Failing(NO_SUCH_FILE) <==> Taken(w, turns))
  {
    WriterHasOpened(w, turns, id);
    TemporaryIffNotTaken(w, turns);
  }

  // ---------------------------------------------------------------------------
  // What that list says.

  ghost predicate Deployed(db: Database, domain: string) {
    exists key :: Probed(db, key) && Declares(db, key, domain)
  }

  predicate Lists(file: seq<Target>, domain: string) {
    exists k :: 0 <= k < |file| && file[k].domain == domain
  }

  /** An inventory reports this domain on a deployed, enabled instance. */
  predicate Serves(items: seq<Item>, name: string, domain: string) {
    var report := LastReport(items, name);
    report.Some? && report.value.enabled && report.value.version.Some? && domain in report.value.domains
  }

  /**
   * In service, as told by the inventories: on an enabled server, by the last
   * inventory committed for it, or by its first rows if none was.
   */
  predicate InService(w: World, turns: seq<Turn>, key: InstanceKey, domain: string) {
    && key.0 in w.shared.db.servers && w.shared.db.servers[key.0].enabled
    && match LastCommit(w, turns, key.0)
       case None => Probed(w.shared.db, key) && Declares(w.shared.db, key, domain)
       case Some(items) => Serves(items, key.1, domain)
  }

  lemma RowInService(w: World, turns: seq<Turn>, key: InstanceKey, domain: string)
    ensures var db := Run(w, turns).shared.db;
            Probed(db, key) && Declares(db, key, domain) <==> InService(w, turns, key, domain)
  {
    RowsFollowLastCommit(w, turns, key);
    RunKeepsServers(w, turns);
    var commit := LastCommit(w, turns, key.0);
    if commit.Some? && LastReport(commit.value, key.1).Some? {
      var row := Run(w, turns).shared.db.instances[key];
      ParseUndoesStringify(row.data.domains, LastReport(commit.value, key.1).value.domains);
    }
  }

  ghost predicate SomeInService(w: World, turns: seq<Turn>, domain: string) {
    exists key :: InService(w, turns, key, domain)
  }

  lemma DeployedIsInService(w: World, turns: seq<Turn>, domain: string)
    ensures Deployed(Run(w, turns).shared.db, domain) <==> SomeInService(w, turns, domain)
  {
    var db := Run(w, turns).shared.db;
    if key :| Probed(db, key) && Declares(db, key, domain) {
      RowInService(w, turns, key, domain);
    }
    if key :| InService(w, turns, key, domain) {
      RowInService(w, turns, key, domain);
    }
  }

  /** What a reader gets is that query's list. */
  lemma PublishedIsListed(render: seq<Target> -> string, w: World, turns: seq<Turn>)
    requires Fresh(w) && PublishedBy(render, w, turns).Some?
    ensures Listing(render, Run(w, turns).shared).Some?
    ensures From(w, turns, PublishedBy(render, w, turns), Listing(render, Run(w, turns).shared).value)
  {
    FileIsAQuery(render, w, turns);
  }

  /**
   * However refreshes overlap, a legible `domains.json` holds exactly the
   * domains that were in service when the query behind it was made, each once.
   */
  lemma FileListsWhatWasInService(render: seq<Target> -> string, w: World, turns: seq<Turn>, domain: string)
    requires Fresh(w) && PublishedBy(render, w, turns).Some?
    ensures var k, file := PublishedBy(render, w, turns).value, Listing(render, Run(w, turns).shared);
            && IsQuery(w, turns, k) && file.Some? && Distinct(file.value)
            && (Lists(file.value, domain) <==> SomeInService(w, turns[..k], domain))
  {
    PublishedIsListed(render, w, turns);
    var k := PublishedBy(render, w, turns).value;
    ProbesAreTheDeployedDomains(Run(w, turns[..k]).shared.db, turns[k].turn.order, domain);
    DeployedIsInService(w, turns[..k], domain);
  }

  predicate ListsIn(render: seq<Target> -> string, s: Shared, domain: string) {
    Listing(render, s).Some? && Lists(Listing(render, s).value, domain)
  }

  /** The file can be read, and lists the domains the cache says are deployed now. */
  ghost predicate Reflects(render: seq<Target> -> string, w: World) {
    Listing(render, w.shared).Some?
    && forall domain :: ListsIn(render, w.shared, domain) <==> Deployed(w.shared.db, domain)
  }

  ghost predicate SameInService(w: World, earlier: seq<Turn>, later: seq<Turn>) {
    forall domain :: SomeInService(w, earlier, domain) <==> SomeInService(w, later, domain)
  }

  /**
   * So it reflects the cache if and only if the inventories committed since that
   * query, taken together, put no domain in service and took none out.
   */
  lemma FileReflectsIffNothingChangedSince(render: seq<Target> -> string, w: World, turns: seq<Turn>)
    requires Fresh(w) && PublishedBy(render, w, turns).Some?
    ensures Reflects(render, Run(w, turns)) <==> SameInService(w, turns[..PublishedBy(render, w, turns).value], turns)
  {
    if Reflects(render, Run(w, turns)) {
      ReflectingMeansSame(render, w, turns, PublishedBy(render, w, turns).value);
    }
    if SameInService(w, turns[..PublishedBy(render, w, turns).value], turns) {
      SameMeansReflecting(render, w, turns, PublishedBy(render, w, turns).value);
    }
  }

  lemma ReflectingMeansSame(render: seq<Target> -> string, w: World, turns: seq<Turn>, k: nat)
    requires Fresh(w) && PublishedBy(render, w, turns) == Some(k) && Reflects(render, Run(w, turns))
    ensures SameInService(w, turns[..k], turns)
  {
    var now := Run(w, turns).shared;
    forall domain ensures SomeInService(w, turns[..k], domain) <==> SomeInService(w, turns, domain) {
      FileListsWhatWasInService(render, w, turns, domain);
      DeployedIsInService(w, turns, domain);
      assert ListsIn(render, now, domain) <==> Deployed(now.db, domain);
    }
  }

  lemma SameMeansReflecting(render: seq<Target> -> string, w: World, turns: seq<Turn>, k: nat)
    requires Fresh(w) && PublishedBy(render, w, turns) == Some(k) && SameInService(w, turns[..k], turns)
    ensures Reflects(render, Run(w, turns))
  {
    var now := Run(w, turns).shared;
    PublishedIsListed(render, w, turns);
    forall domain ensures ListsIn(render, now, domain) <==> Deployed(now.db, domain) {
      FileListsWhatWasInService(render, w, turns, domain);
      DeployedIsInService(w, turns, domain);
      assert SomeInService(w, turns[..k], domain) <==> SomeInService(w, turns, domain);
    }
  }

  // ---------------------------------------------------------------------------
  // Row by row.

  /** What the query sees of a row. */
  function SeenOf(db: Database, key: InstanceKey): Option<seq<string>> {
    if Probed(db, key) then Some(ParseDomains(db.instances[key].data.domains)) else None
  }

  ghost predicate SameRows(a: Database, b: Database) {
    forall key :: SeenOf(a, key) == SeenOf(b, key)
  }

  /** No commit from turn `k` on changes a probed row. */
  ghost predicate NoRowChanges(w: World, turns: seq<Turn>, k: nat)
    decreases |turns|
  {
    |turns| <= k
    || (var n := |turns| - 1;
        var before, t := Run(w, turns[..n]), turns[n];
        NoRowChanges(w, turns[..n], k) && (CommitAt(before, t).Some? ==> SameRows(before.shared.db, Step(before, t).shared.db)))
  }

  lemma OnlyCommitsChangeRows(w: World, t: Turn)
    requires CommitAt(w, t) == None
    ensures SameRows(w.shared.db, Step(w, t).shared.db)
  {
  }

  lemma {:induction false} RowsStayTheSame(w: World, turns: seq<Turn>, k: nat)
    requires k <= |turns| && NoRowChanges(w, turns, k)
    ensures SameRows(Run(w, turns[..k]).shared.db, Run(w, turns).shared.db)
    decreases |turns|
  {
    var n := |turns| - 1;
    if k == |turns| {
      assert turns[..k] == turns;
    } else {
      RowsStayTheSame(w, turns[..n], k);
      assert turns[..n][..k] == turns[..k];
      if CommitAt(Run(w, turns[..n]), turns[n]) == None {
        OnlyCommitsChangeRows(Run(w, turns[..n]), turns[n]);
      }
      SameTwice(Run(w, turns[..k]).shared.db, Run(w, turns[..n]).shared.db, Run(w, turns).shared.db);
    }
  }

  lemma SameTwice(a: Database, b: Database, c: Database)
    requires SameRows(a, b) && SameRows(b, c)
    ensures SameRows(a, c)
  {
    forall key ensures SeenOf(a, key) == SeenOf(c, key) {
      assert SeenOf(a, key) == SeenOf(b, key) && SeenOf(b, key) == SeenOf(c, key);
    }
  }

  lemma SameRowsSameOrder(a: Database, b: Database, order: seq<InstanceKey>)
    requires SameRows(a, b) && QueryOrder(a, order)
    ensures QueryOrder(b, order)
  {
    forall i | 0 <= i < |order| ensures Probed(b, order[i]) {
      assert SeenOf(a, order[i]) == SeenOf(b, order[i]);
    }
    forall key | key in b.instances && Probed(b, key) ensures key in order {
      assert SeenOf(a, key) == SeenOf(b, key);
    }
  }

  lemma {:induction false} SameRowsSameClaims(a: Database, b: Database, order: seq<InstanceKey>)
    requires SameRows(a, b)
    requires forall i :: 0 <= i < |order| ==> order[i] in a.instances && order[i] in b.instances
    requires forall i :: 0 <= i < |order| ==> Probed(a, order[i])
    ensures Claims(a, order) == Claims(b, order)
    decreases |order|
  {
    if order != [] {
      var n := |order| - 1;
      SameRowsSameClaims(a, b, order[..n]);
      assert SeenOf(a, order[n]) == SeenOf(b, order[n]);
    }
  }

  /**
   * While no commit since the query has changed a probed row, the file is word
   * for word what a query made now could give, attributions included.
   */
  lemma FileIsCurrent(render: seq<Target> -> string, w: World, turns: seq<Turn>)
    requires Fresh(w) && PublishedBy(render, w, turns).Some? && NoRowChanges(w, turns, PublishedBy(render, w, turns).value)
    ensures var k, db := PublishedBy(render, w, turns).value, Run(w, turns).shared.db;
            && IsQuery(w, turns, k) && QueryOrder(db, turns[k].turn.order)
            && Listing(render, Run(w, turns).shared) == Some(FirstClaims(Claims(db, turns[k].turn.order)))
  {
    PublishedIsListed(render, w, turns);
    var k := PublishedBy(render, w, turns).value;
    RowsStayTheSame(w, turns, k);
    SameRowsSameOrder(Run(w, turns[..k]).shared.db, Run(w, turns).shared.db, turns[k].turn.order);
    SameRowsSameClaims(Run(w, turns[..k]).shared.db, Run(w, turns).shared.db, turns[k].turn.order);
  }

  function Declaring(domain: string, id: nat): InstanceRow {
    InstanceRow(id, Data(None, None, true, Some("v1"), "running", DomainsText.Listed([Some(domain)])))
  }

  /**
   * It need not be word for word for the domains to be right: a second instance
   * declaring a domain already listed changes a row and not the list.
   */
  lemma RowsMayChangeAndDomainsNot(domain: string, other: string)
    ensures var a := Database(map["a" := ServerRow(StackServer, true, None, None)], map[("a", "x") := Declaring(domain, 0)], 2);
            var b := a.(instances := a.instances[("a", "y") := Declaring(domain, 1)]);
            !SameRows(a, b) && (Deployed(a, other) <==> Deployed(b, other))
  {
    var a := Database(map["a" := ServerRow(StackServer, true, None, None)], map[("a", "x") := Declaring(domain, 0)], 2);
    var b := a.(instances := a.instances[("a", "y") := Declaring(domain, 1)]);
    var values: seq<Option<string>> := [Some(domain)];
    assert values[1..] == [];
    assert TextOnly(values) == [domain] + TextOnly([]) == [domain];
    assert SeenOf(a, ("a", "y")) == None && SeenOf(b, ("a", "y")) == Some([domain]);
    assert Probed(a, ("a", "x")) && Probed(b, ("a", "x"));
    if other == domain {
      assert Declares(a, ("a", "x"), other) && Declares(b, ("a", "x"), other);
    }
  }

  // ---------------------------------------------------------------------------
  // Two refreshes that overlap.

  lemma {:induction false} RunJoins(w: World, earlier: seq<Turn>, later: seq<Turn>)
    ensures Run(w, earlier + later) == Run(Run(w, earlier), later)
    decreases |later|
  {
    if later == [] {
      assert earlier + later == earlier;
    } else {
      var n := |later| - 1;
      RunJoins(w, earlier, later[..n]);
      assert (earlier + later)[..|earlier| + n] == earlier + later[..n];
    }
  }

  /** A list opened, filled and renamed with nothing in between. */
  function Publishing(id: nat): seq<Turn> {
    [On(id, Opens)] + [On(id, Fills)] + [On(id, Renames)]
  }

  function WithFile(s: Shared, targets: seq<Target>): Shared {
    var k := OpenedAs(s);
    s.(contents := if k < |s.contents| then s.contents[k := [targets]] else s.contents + [[targets]],
       temporary := None, file := Some(k))
  }

  lemma LateFills(w: World, id: nat)
    requires id in w.refreshes && w.refreshes[id].progress.Queried?
    ensures var r, s := w.refreshes[id], WithFile(w.shared, w.refreshes[id].progress.targets);
            Run(w, [On(id, Opens)] + [On(id, Fills)]) ==
            w.(shared := s.(temporary := s.file, file := w.shared.file),
               refreshes := w.refreshes[id := r.(progress := Written(r.progress.instances))])
  {
    OneMore(w, [], On(id, Opens));
    assert [] + [On(id, Opens)] == [On(id, Opens)];
    OnlyList(w.refreshes[id].progress.targets);
    OneMore(w, [On(id, Opens)], On(id, Fills));
  }

  lemma LatePublishes(w: World, id: nat)
    requires id in w.refreshes && w.refreshes[id].progress.Queried?
    ensures var r := w.refreshes[id];
            Run(w, Publishing(id)) ==
            w.(shared := WithFile(w.shared, r.progress.targets),
               refreshes := w.refreshes[id := r.(progress := Finished(Refreshed(r.progress.instances)))])
    ensures PublishedList(Run(w, Publishing(id)), w.refreshes[id].progress.targets)
  {
    LateFills(w, id);
    OneMore(w, [On(id, Opens)] + [On(id, Fills)], On(id, Renames));
  }

  lemma QueriesNext(w: World, id: nat, items: seq<Item>, now: int, order: seq<InstanceKey>)
    requires id in w.refreshes && w.shared.listed && w.refreshes[id].progress.Reading?
    requires w.refreshes[id].server in w.shared.db.servers
    requires QueryOrder(Saved(w.shared.db, w.refreshes[id].server, items, now), order)
    ensures var r, db := w.refreshes[id], Saved(w.shared.db, w.refreshes[id].server, items, now);
            Run(w, [On(id, Commits(items, now))] + [On(id, Queries(order))]) ==
            w.(shared := w.shared.(db := db),
               refreshes := w.refreshes[id := r.(progress := Queried(|items|, FirstClaims(Claims(db, order))))])
  {
    OneMore(w, [], On(id, Commits(items, now)));
    assert [] + [On(id, Commits(items, now))] == [On(id, Commits(items, now))];
    OneMore(w, [On(id, Commits(items, now))], On(id, Queries(order)));
  }

  /** A refresh from its commit to its rename, with nothing in between. */
  function Through(id: nat, items: seq<Item>, now: int, order: seq<InstanceKey>): seq<Turn> {
    ([On(id, Commits(items, now))] + [On(id, Queries(order))]) + Publishing(id)
  }

  lemma ThroughPublishes(w: World, id: nat, items: seq<Item>, now: int, order: seq<InstanceKey>)
    requires id in w.refreshes && w.shared.listed && w.refreshes[id].progress.Reading?
    requires w.refreshes[id].server in w.shared.db.servers
    requires QueryOrder(Saved(w.shared.db, w.refreshes[id].server, items, now), order)
    ensures var r, db := w.refreshes[id], Saved(w.shared.db, w.refreshes[id].server, items, now);
            Run(w, Through(id, items, now, order)) ==
            w.(shared := WithFile(w.shared.(db := db), FirstClaims(Claims(db, order))),
               refreshes := w.refreshes[id := r.(progress := Finished(Refreshed(|items|)))])
  {
    var half := [On(id, Commits(items, now))] + [On(id, Queries(order))];
    QueriesNext(w, id, items, now, order);
    RunJoins(w, half, Publishing(id));
    LatePublishes(Run(w, half), id);
  }

  /**
   * A refresh that queried before another one committed, and writes after it:
   * both succeed, and the file is the older list.
   */
  lemma OlderListWins(w: World, slow: nat, quick: nat, items: seq<Item>, now: int, order: seq<InstanceKey>)
    requires slow != quick && slow in w.refreshes && quick in w.refreshes && w.shared.listed
    requires w.refreshes[slow].progress.Queried? && w.refreshes[quick].progress.Reading?
    requires w.refreshes[quick].server in w.shared.db.servers
    requires QueryOrder(Saved(w.shared.db, w.refreshes[quick].server, items, now), order)
    ensures var end := Run(w, Through(quick, items, now, order) + Publishing(slow));
            && slow in end.refreshes && quick in end.refreshes
            && end.refreshes[slow].progress == Finished(Refreshed(w.refreshes[slow].progress.instances))
            && end.refreshes[quick].progress == Finished(Refreshed(|items|))
            && PublishedList(end, w.refreshes[slow].progress.targets)
            && end.shared.db == Saved(w.shared.db, w.refreshes[quick].server, items, now)
  {
    RunJoins(w, Through(quick, items, now, order), Publishing(slow));
    ThroughPublishes(w, quick, items, now, order);
    LatePublishes(Run(w, Through(quick, items, now, order)), slow);
  }

  /** The file is there, and this list is all that went into it. */
  predicate PublishedList(w: World, targets: seq<Target>) {
    FileContent(w.shared) == Some([targets])
  }

  function Shop(domain: string): Item {
    Item("shop", None, None, true, Some("v1"), "running", [domain])
  }

  /** Two refreshes of different servers are called, and found. */
  const TWO_BEGUN := [Begin(0, "a")] + [Begin(1, "b")] + [On(0, Finds)] + [On(1, Finds)]

  /** The first has queried; the second still reads. */
  const ONE_AHEAD := TWO_BEGUN + [On(0, Commits([], 0))] + [On(0, Queries([]))]

  lemma TwoBegun()
    ensures var w := Run(TWO_SERVERS, TWO_BEGUN);
            && w.shared == TWO_SERVERS.shared
            && 0 in w.refreshes && w.refreshes[0] == RefreshState("a", Reading)
            && 1 in w.refreshes && w.refreshes[1] == RefreshState("b", Reading)
  {
    var a := [Begin(0, "a")];
    var b := a + [Begin(1, "b")];
    OneMore(TWO_SERVERS, [], Begin(0, "a"));
    assert [] + a == a;
    OneMore(TWO_SERVERS, a, Begin(1, "b"));
    OneMore(TWO_SERVERS, b, On(0, Finds));
    OneMore(TWO_SERVERS, b + [On(0, Finds)], On(1, Finds));
  }

  lemma NothingReported(db: Database, server: string, now: int)
    requires server in db.servers && db.instances == map[]
    ensures Saved(db, server, [], now).instances == map[]
  {
    var after := Saved(db, server, [], now).instances;
    forall key ensures key !in after {
      SaveMeaning(db, server, [], now, key);
    }
  }

  lemma OneAhead()
    ensures var w := Run(TWO_SERVERS, ONE_AHEAD);
            && 0 in w.refreshes && w.refreshes[0].progress == Queried(0, [])
            && 1 in w.refreshes && w.refreshes[1] == RefreshState("b", Reading)
            && w.shared == TWO_SERVERS.shared.(db := Saved(TWO_SERVERS.shared.db, "a", [], 0))
  {
    TwoBegun();
    OneMore(TWO_SERVERS, TWO_BEGUN, On(0, Commits([], 0)));
    OneMore(TWO_SERVERS, TWO_BEGUN + [On(0, Commits([], 0))], On(0, Queries([])));
    NothingReported(TWO_SERVERS.shared.db, "a", 0);
  }

  function ShopList(domain: string): seq<Target> {
    [Target(domain, "b", "shop")]
  }

  lemma OneClaim(db: Database, domain: string)
    requires ("b", "shop") in db.instances && ParseDomains(db.instances[("b", "shop")].data.domains) == [domain]
    ensures FirstClaims(Claims(db, [("b", "shop")])) == ShopList(domain)
  {
    var order := [("b", "shop")];
    assert order[..0] == [] && [domain][1..] == [] && ShopList(domain)[..0] == [];
    assert ClaimsOf(db, ("b", "shop")) == ShopList(domain) + ClaimsFor(("b", "shop"), []) == ShopList(domain);
    assert Claims(db, order) == [] + ShopList(domain) == ShopList(domain);
    assert FirstClaims(ShopList(domain)) == [] + ShopList(domain);
  }

  lemma ShopIsProbed(db: Database, domain: string)
    requires "b" in db.servers && db.servers["b"].enabled && db.instances == map[]
    ensures QueryOrder(Saved(db, "b", [Shop(domain)], 0), [("b", "shop")])
    ensures Deployed(Saved(db, "b", [Shop(domain)], 0), domain)
    ensures FirstClaims(Claims(Saved(db, "b", [Shop(domain)], 0), [("b", "shop")])) == ShopList(domain)
  {
    var after := Saved(db, "b", [Shop(domain)], 0);
    assert [Shop(domain)][..0] == [];
    SaveMeaning(db, "b", [Shop(domain)], 0, ("b", "shop"));
    ParseUndoesStringify(after.instances[("b", "shop")].data.domains, [domain]);
    assert Probed(after, ("b", "shop")) && Declares(after, ("b", "shop"), domain);
    OneClaim(after, domain);
    forall key | key in after.instances && Probed(after, key) ensures key in [("b", "shop")] {
      SaveMeaning(db, "b", [Shop(domain)], 0, key);
    }
  }

  /** The run that loses a domain: two refreshes from an empty cache, both reporting success. */
  lemma OverlapLosesADomain(render: seq<Target> -> string, domain: string)
    ensures var end := Run(TWO_SERVERS, ONE_AHEAD + (Through(1, [Shop(domain)], 0, [("b", "shop")]) + Publishing(0)));
            && 0 in end.refreshes && end.refreshes[0].progress == Finished(Refreshed(0))
            && 1 in end.refreshes && end.refreshes[1].progress == Finished(Refreshed(1))
            && PublishedList(end, []) && Deployed(end.shared.db, domain) && !Reflects(render, end)
  {
    var w := Run(TWO_SERVERS, ONE_AHEAD);
    OneAhead();
    NothingReported(TWO_SERVERS.shared.db, "a", 0);
    ShopIsProbed(w.shared.db, domain);
    OlderListWins(w, 0, 1, [Shop(domain)], 0, [("b", "shop")]);
    RunJoins(TWO_SERVERS, ONE_AHEAD, Through(1, [Shop(domain)], 0, [("b", "shop")]) + Publishing(0));
    var end := Run(TWO_SERVERS, ONE_AHEAD + (Through(1, [Shop(domain)], 0, [("b", "shop")]) + Publishing(0)));
    assert !ListsIn(render, end.shared, domain);
  }

  // ---------------------------------------------------------------------------
  // Two that write at once.

  /** The second opens the file the first has filled, which the first then renames. */
  function Colliding(first: nat, second: nat): seq<Turn> {
    [On(first, Opens)] + [On(first, Fills)] + [On(second, Opens)] + [On(first, Renames)]
  }

  lemma CollidingOpens(w: World, first: nat, second: nat)
    requires first != second && first in w.refreshes && second in w.refreshes
    requires w.refreshes[first].progress.Queried? && w.refreshes[second].progress.Queried?
    ensures var k := OpenedAs(w.shared);
            var end := Run(w, [On(first, Opens)] + [On(first, Fills)] + [On(second, Opens)]);
            && end.shared.db == w.shared.db && end.shared.temporary == Some(k)
            && k < |end.shared.contents| && end.shared.contents[k] == []
            && first in end.refreshes && end.refreshes[first] == w.refreshes[first].(progress := Written(w.refreshes[first].progress.instances))
            && second in end.refreshes
            && end.refreshes[second] == w.refreshes[second].(
                 progress := Opened(w.refreshes[second].progress.instances, w.refreshes[second].progress.targets, k))
  {
    LateFills(w, first);
    OneMore(w, [On(first, Opens)] + [On(first, Fills)], On(second, Opens));
  }

  /** What is published is empty, by a refresh that reports success. */
  lemma CollisionPublishesEmpty(w: World, first: nat, second: nat)
    requires first != second && first in w.refreshes && second in w.refreshes
    requires w.refreshes[first].progress.Queried? && w.refreshes[second].progress.Queried?
    ensures var k := OpenedAs(w.shared);
            var end := Run(w, Colliding(first, second));
            && FileContent(end.shared) == Some([]) && end.shared.file == Some(k)
            && end.shared.temporary == None && end.shared.db == w.shared.db
            && first in end.refreshes && end.refreshes[first].progress == Finished(Refreshed(w.refreshes[first].progress.instances))
            && second in end.refreshes
            && end.refreshes[second] == w.refreshes[second].(
                 progress := Opened(w.refreshes[second].progress.instances, w.refreshes[second].progress.targets, k))
  {
    CollidingOpens(w, first, second);
    OneMore(w, [On(first, Opens)] + [On(first, Fills)] + [On(second, Opens)], On(first, Renames));
  }

  /** The second then writes into the published file, and finds nothing to rename. */
  lemma SecondFindsNothing(w: World, second: nat)
    requires second in w.refreshes && w.refreshes[second].progress.Opened?
    requires w.shared.temporary == None && w.shared.file == Some(w.refreshes[second].progress.handle)
    requires FileContent(w.shared) == Some([])
    ensures var r, end := w.refreshes[second], Run(w, [On(second, Fills)] + [On(second, Renames)]);
            && PublishedList(end, r.progress.targets) && end.shared.db == w.shared.db
            && second in end.refreshes && end.refreshes[second] == r.(progress := Failing(NO_SUCH_FILE))
  {
    OneMore(w, [], On(second, Fills));
    assert [] + [On(second, Fills)] == [On(second, Fills)];
    OnlyList(w.refreshes[second].progress.targets);
    OneMore(w, [On(second, Fills)], On(second, Renames));
  }

  /** And its server's row says so. */
  lemma SecondFails(w: World, second: nat)
    requires second in w.refreshes && w.refreshes[second].progress.Opened? && w.refreshes[second].server in w.shared.db.servers
    requires w.shared.temporary == None && w.shared.file == Some(w.refreshes[second].progress.handle)
    requires FileContent(w.shared) == Some([])
    ensures var r, end := w.refreshes[second], Run(w, [On(second, Fills)] + [On(second, Renames)] + [On(second, Records)]);
            && PublishedList(end, r.progress.targets)
            && end.shared.db == FailureSaved(w.shared.db, r.server, NO_SUCH_FILE)
            && second in end.refreshes && end.refreshes[second].progress == Finished(NotRefreshed(NO_SUCH_FILE))
  {
    SecondFindsNothing(w, second);
    OneMore(w, [On(second, Fills)] + [On(second, Renames)], On(second, Records));
  }

  /** Both refreshes of the two servers have queried. */
  function BothQueried(domain: string): seq<Turn> {
    ONE_AHEAD + ([On(1, Commits([Shop(domain)], 0))] + [On(1, Queries([("b", "shop")]))])
  }

  lemma BothHaveQueried(domain: string)
    ensures var w := Run(TWO_SERVERS, BothQueried(domain));
            && 0 in w.refreshes && w.refreshes[0].progress == Queried(0, [])
            && 1 in w.refreshes && w.refreshes[1].server == "b" && w.refreshes[1].progress.Queried?
            && w.refreshes[1].progress.targets == ShopList(domain)
            && "b" in w.shared.db.servers && Deployed(w.shared.db, domain)
  {
    var w := Run(TWO_SERVERS, ONE_AHEAD);
    OneAhead();
    NothingReported(TWO_SERVERS.shared.db, "a", 0);
    ShopIsProbed(w.shared.db, domain);
    RunJoins(TWO_SERVERS, ONE_AHEAD, [On(1, Commits([Shop(domain)], 0))] + [On(1, Queries([("b", "shop")]))]);
    QueriesNext(w, 1, [Shop(domain)], 0, [("b", "shop")]);
  }

  /** The run that publishes an empty file: its refresh reports success, and a deployed domain is probed by nobody. */
  lemma OverlapPublishesAnEmptyFile(domain: string)
    ensures var end := Run(TWO_SERVERS, BothQueried(domain) + Colliding(0, 1));
            && FileContent(end.shared) == Some([]) && Deployed(end.shared.db, domain)
            && 0 in end.refreshes && end.refreshes[0].progress == Finished(Refreshed(0))
  {
    BothHaveQueried(domain);
    RunJoins(TWO_SERVERS, BothQueried(domain), Colliding(0, 1));
    CollisionPublishesEmpty(Run(TWO_SERVERS, BothQueried(domain)), 0, 1);
  }

  /**
   * And on to its end: the second refresh fails for want of the temporary file,
   * and its server shows as unreachable, though its inventory is committed and
   * its list is the one published.
   */
  lemma OverlapTakesTheFile(domain: string, now: int)
    ensures var end := Run(TWO_SERVERS, BothQueried(domain) + (Colliding(0, 1) + ([On(1, Fills)] + [On(1, Renames)] + [On(1, Records)])));
            && 1 in end.refreshes && end.refreshes[1].progress == Finished(NotRefreshed(NO_SUCH_FILE))
            && PublishedList(end, ShopList(domain)) && "b" in end.shared.db.servers
            && ServerHealth(end.shared.db.servers["b"].lastSeenAt, end.shared.db.servers["b"].lastError, now) == Unreachable
  {
    var rest := [On(1, Fills)] + [On(1, Renames)] + [On(1, Records)];
    var w := Run(TWO_SERVERS, BothQueried(domain));
    BothHaveQueried(domain);
    RunJoins(TWO_SERVERS, BothQueried(domain), Colliding(0, 1) + rest);
    RunJoins(w, Colliding(0, 1), rest);
    CollisionPublishesEmpty(w, 0, 1);
    SecondFails(Run(w, Colliding(0, 1)), 1);
  }

  // ---------------------------------------------------------------------------
  // Two lists in one file.

  /** Both open the file before either writes; the first writes last and renames it. */
  function BothFill(first: nat, second: nat): seq<Turn> {
    [On(first, Opens)] + [On(second, Opens)] + [On(second, Fills)] + [On(first, Fills)] + [On(first, Renames)]
  }

  lemma BothOpen(w: World, first: nat, second: nat)
    requires first != second && first in w.refreshes && second in w.refreshes
    requires w.refreshes[first].progress.Queried? && w.refreshes[second].progress.Queried?
    ensures var k, end := OpenedAs(w.shared), Run(w, [On(first, Opens)] + [On(second, Opens)]);
            && end.shared.db == w.shared.db && end.shared.temporary == Some(k)
            && k < |end.shared.contents| && end.shared.contents[k] == []
            && first in end.refreshes && second in end.refreshes
            && end.refreshes[first] == w.refreshes[first].(
                 progress := Opened(w.refreshes[first].progress.instances, w.refreshes[first].progress.targets, k))
            && end.refreshes[second] == w.refreshes[second].(
                 progress := Opened(w.refreshes[second].progress.instances, w.refreshes[second].progress.targets, k))
  {
    OneMore(w, [], On(first, Opens));
    assert [] + [On(first, Opens)] == [On(first, Opens)];
    OneMore(w, [On(first, Opens)], On(second, Opens));
  }

  lemma BothFillPublishes(w: World, first: nat, second: nat)
    requires first != second && first in w.refreshes && second in w.refreshes
    requires w.refreshes[first].progress.Queried? && w.refreshes[second].progress.Queried?
    ensures var end := Run(w, BothFill(first, second));
            && FileContent(end.shared) == Some([w.refreshes[second].progress.targets, w.refreshes[first].progress.targets])
            && end.shared.db == w.shared.db
            && first in end.refreshes && end.refreshes[first].progress == Finished(Refreshed(w.refreshes[first].progress.instances))
  {
    var last, other := w.refreshes[first].progress.targets, w.refreshes[second].progress.targets;
    var open := [On(first, Opens)] + [On(second, Opens)];
    BothOpen(w, first, second);
    OnlyList(other);
    assert [other] + [last] == [other, last];
    OneMore(w, open, On(second, Fills));
    OneMore(w, open + [On(second, Fills)], On(first, Fills));
    OneMore(w, open + [On(second, Fills)] + [On(first, Fills)], On(first, Renames));
  }

  lemma TextOfTwo(render: seq<Target> -> string, a: seq<Target>, b: seq<Target>)
    ensures TextOf(render, [a, b]) == Overwritten(render(a), render(b))
  {
    assert [a, b][..1] == [a] && [a][..0] == [];
    assert TextOf(render, [a]) == Overwritten("", render(a)) == render(a);
  }

  /** Nothing is broken if the list written last is no shorter than the other, as two equal ones are. */
  lemma BothFillIsLegible(render: seq<Target> -> string, w: World, first: nat, second: nat)
    requires first != second && first in w.refreshes && second in w.refreshes
    requires w.refreshes[first].progress.Queried? && w.refreshes[second].progress.Queried?
    ensures var last, other := w.refreshes[first].progress.targets, w.refreshes[second].progress.targets;
            Listing(render, Run(w, BothFill(first, second)).shared) ==
            if |render(other)| <= |render(last)| then Some(last) else None
  {
    var last, other := w.refreshes[first].progress.targets, w.refreshes[second].progress.targets;
    BothFillPublishes(w, first, second);
    TextOfTwo(render, other, last);
    OverwrittenIsNew(render(other), render(last));
  }

  /**
   * The run that leaves a tail: the file published is the empty list, then the
   * end of the longer one. Its refresh reports success.
   */
  lemma OverlapLeavesATail(render: seq<Target> -> string, domain: string)
    requires |render([])| < |render(ShopList(domain))|
    ensures var end := Run(TWO_SERVERS, BothQueried(domain) + BothFill(0, 1));
            && FileContent(end.shared).Some? && Listing(render, end.shared) == None
            && TextOf(render, FileContent(end.shared).value) == render([]) + render(ShopList(domain))[|render([])|..]
            && 0 in end.refreshes && end.refreshes[0].progress == Finished(Refreshed(0)) && Deployed(end.shared.db, domain)
  {
    var w := Run(TWO_SERVERS, BothQueried(domain));
    BothHaveQueried(domain);
    RunJoins(TWO_SERVERS, BothQueried(domain), BothFill(0, 1));
    BothFillPublishes(w, 0, 1);
    BothFillIsLegible(render, w, 0, 1);
    TextOfTwo(render, ShopList(domain), []);
  }
}
