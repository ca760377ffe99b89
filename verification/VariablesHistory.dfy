/**
 * What the variables editor holds, told from what the operator did and how the
 * requests ended, without any state: what is wanted of each name, what is being
 * typed for which name, and which save is in flight
 * (`frontend/src/app/features/instance-detail/instance-variables/instance-variables.ts`).
 */
module VariablesHistory {
  import opened Wrappers
  import opened VariablesEditor

  /** What is pending for one name. */
  datatype Wanted = SetTo(value: string) | Unset | AsItIs

  /** Keeping keeps something when a name is open and something was typed for it. */
  predicate CanKeep(open: Option<string>, typed: string) {
    open.Some? && open != Some("") && typed != ""
  }

  /** The input that is open: the last one opened, until it is cancelled, kept, discarded or saved away. */
  function OpenFor(events: seq<Event>): Option<string>
    decreases |events|, 0
  {
    if events == [] then None
    else
      var n := |events| - 1;
      var before := events[..n];
      match events[n]
      case Open(name) => Some(name)
      case Cancel => None
      case Discard => None
      case Keep => if CanKeep(OpenFor(before), Typed(before)) then None else OpenFor(before)
      case Written => if SavedAt(before).Some? then None else OpenFor(before)
      case _ => OpenFor(before)
  }

  /** What was typed since. */
  function Typed(events: seq<Event>): string
    decreases |events|, 0
  {
    if events == [] then ""
    else
      var n := |events| - 1;
      var before := events[..n];
      match events[n]
      case TypeIn(text) => text
      case Open(_) => ""
      case Cancel => ""
      case Discard => ""
      case Keep => if CanKeep(OpenFor(before), Typed(before)) then "" else Typed(before)
      case Written => if SavedAt(before).Some? then "" else Typed(before)
      case _ => Typed(before)
  }

  /**
   * The last of what was kept for a name, its removal, and what takes either
   * back: an undo, a discard, or the success of a save.
   */
  function WantedOf(events: seq<Event>, name: string): Wanted
    decreases |events|, 0
  {
    if events == [] then AsItIs
    else
      var n := |events| - 1;
      var before := events[..n];
      match events[n]
      case Keep =>
        if CanKeep(OpenFor(before), Typed(before)) && OpenFor(before) == Some(name) then SetTo(Typed(before))
        else WantedOf(before, name)
      case Remove(removed) => if removed == name then Unset else WantedOf(before, name)
      case Undo(undone) => if undone == name then AsItIs else WantedOf(before, name)
      case Discard => AsItIs
      case Written => if SavedAt(before).Some? then AsItIs else WantedOf(before, name)
      case _ => WantedOf(before, name)
  }

  function NameIn(event: Event): Option<string> {
    match event { case Open(name) => Some(name) case Remove(name) => Some(name) case _ => None }
  }

  /** Something is wanted of one of the names in the first `k` events. */
  predicate WantedBy(events: seq<Event>, k: nat)
    requires k <= |events|
    decreases |events|, 1, k
  {
    k > 0 && ((NameIn(events[k - 1]).Some? && WantedOf(events, NameIn(events[k - 1]).value) != AsItIs)
              || WantedBy(events, k - 1))
  }

  /** The save in flight, by its place among the events. */
  function SavedAt(events: seq<Event>): Option<nat>
    decreases |events|, 2
  {
    if events == [] then None
    else
      var n := |events| - 1;
      var before := events[..n];
      match events[n]
      case Save => if SavedAt(before) == None && WantedBy(before, n) then Some(n) else SavedAt(before)
      case Written => None
      case Refused(_) => None
      case _ => SavedAt(before)
  }

  /** The save whose success is being shown. */
  function ShownAt(events: seq<Event>): Option<nat>
    decreases |events|
  {
    if events == [] then None
    else
      var n := |events| - 1;
      var before := events[..n];
      match events[n]
      case Written => if SavedAt(before).Some? then SavedAt(before) else ShownAt(before)
      case Dismiss => None
      case _ => ShownAt(before)
  }

  /** The refusal being shown: the last, until something is opened, removed, discarded or saved. */
  function RefusalShown(events: seq<Event>): Option<string>
    decreases |events|
  {
    if events == [] then None
    else
      var n := |events| - 1;
      var before := events[..n];
      match events[n]
      case Refused(message) => if SavedAt(before).Some? then Some(message) else RefusalShown(before)
      case Open(_) => None
      case Remove(_) => None
      case Discard => None
      case Save => if SavedAt(before) == None && WantedBy(before, n) then None else RefusalShown(before)
      case Written => if SavedAt(before).Some? then None else RefusalShown(before)
      case _ => RefusalShown(before)
  }

  lemma {:induction false} SavedEarlier(events: seq<Event>)
    ensures SavedAt(events).Some? ==> SavedAt(events).value < |events| && events[SavedAt(events).value] == Save
    ensures ShownAt(events).Some? ==> ShownAt(events).value < |events| && events[ShownAt(events).value] == Save
    decreases |events|
  {
    if events != [] {
      SavedEarlier(events[..|events| - 1]);
    }
  }

  // ---------------------------------------------------------------------------
  // The editor holds just that.

  /** A change holds what is wanted of a name: its value, its removal, or neither. */
  predicate HoldsFor(change: Change, name: string, wanted: Wanted) {
    match wanted
    case SetTo(value) => name in change.edits && change.edits[name] == value && name !in change.removals
    case Unset => name !in change.edits && name in change.removals
    case AsItIs => name !in change.edits && name !in change.removals
  }

  /** A change is what was wanted after some events, name by name. */
  ghost predicate IsWanted(change: Change, events: seq<Event>) {
    forall name: string :: HoldsFor(change, name, WantedOf(events, name))
  }

  /** The input, and whether a request is in flight. */
  predicate InputIsTold(e: Editor, events: seq<Event>) {
    e.editing == OpenFor(events) && e.draft == Typed(events) && (e.sent.Some? <==> SavedAt(events).Some?)
  }

  /** The part of the editor the events before tell of, one name of it. */
  predicate NameIsTold(e: Editor, events: seq<Event>, name: string) {
    InputIsTold(e, events) && HoldsFor(Pending(e), name, WantedOf(events, name))
  }

  lemma KeepMoves(e: Editor, events: seq<Event>, name: string)
    requires NameIsTold(e, events, name)
    ensures HoldsFor(Pending(EditorStep(e, Keep)), name, WantedOf(events + [Keep], name))
  {
    assert (events + [Keep])[..|events|] == events;
    if e.editing.Some? {
      WithoutLeavesOthers(e.removals, e.editing.value, name);
    }
  }

  lemma RemoveMoves(e: Editor, events: seq<Event>, removed: string, name: string)
    requires NameIsTold(e, events, name)
    ensures HoldsFor(Pending(EditorStep(e, Remove(removed))), name, WantedOf(events + [Remove(removed)], name))
  {
    assert (events + [Remove(removed)])[..|events|] == events;
  }

  /** An undo takes back the edit or the removal of its own name, and nothing of any other. */
  lemma UndoMoves(e: Editor, events: seq<Event>, undone: string, name: string)
    requires NameIsTold(e, events, name)
    ensures HoldsFor(Pending(EditorStep(e, Undo(undone))), name, WantedOf(events + [Undo(undone)], name))
  {
    assert (events + [Undo(undone)])[..|events|] == events;
    WithoutLeavesOthers(e.removals, undone, name);
  }

  /** The other events take back everything or change nothing that is pending. */
  lemma OthersMove(e: Editor, events: seq<Event>, event: Event, name: string)
    requires NameIsTold(e, events, name) && !event.Keep? && !event.Remove? && !event.Undo?
    ensures HoldsFor(Pending(EditorStep(e, event)), name, WantedOf(events + [event], name))
  {
    assert (events + [event])[..|events|] == events;
  }

  lemma NameMoves(e: Editor, events: seq<Event>, event: Event, name: string)
    requires NameIsTold(e, events, name)
    ensures HoldsFor(Pending(EditorStep(e, event)), name, WantedOf(events + [event], name))
  {
    match event
    case Keep => KeepMoves(e, events, name);
    case Remove(removed) => RemoveMoves(e, events, removed, name);
    case Undo(undone) => UndoMoves(e, events, undone, name);
    case _ => OthersMove(e, events, event, name);
  }

  /** Nothing is ever wanted of a name that was neither opened nor removed. */
  lemma {:induction false} OnlyOfNamed(events: seq<Event>, name: string)
    requires forall k :: 0 <= k < |events| ==> NameIn(events[k]) != Some(name)
    ensures WantedOf(events, name) == AsItIs && OpenFor(events) != Some(name)
    decreases |events|
  {
    if events != [] {
      var n := |events| - 1;
      OnlyOfNamed(events[..n], name);
      assert NameIn(events[n]) != Some(name);
    }
  }

  lemma {:induction false} WantedByIff(events: seq<Event>, k: nat)
    requires k <= |events|
    ensures WantedBy(events, k) <==>
            exists i :: 0 <= i < k && NameIn(events[i]).Some? && WantedOf(events, NameIn(events[i]).value) != AsItIs
    decreases k
  {
    if k > 0 {
      WantedByIff(events, k - 1);
    }
  }

  lemma PendingIffWanted(change: Change, events: seq<Event>)
    requires IsWanted(change, events)
    ensures WantedBy(events, |events|) <==> change.edits != map[] || change.removals != []
  {
    WantedByIff(events, |events|);
    if WantedBy(events, |events|) {
      var i :| 0 <= i < |events| && NameIn(events[i]).Some? && WantedOf(events, NameIn(events[i]).value) != AsItIs;
      assert HoldsFor(change, NameIn(events[i]).value, WantedOf(events, NameIn(events[i]).value));
    }
    if change.edits != map[] {
      var name :| name in change.edits;
      HeldIsNamed(change, events, name);
    } else if change.removals != [] {
      HeldIsNamed(change, events, change.removals[0]);
    }
  }

  lemma HeldIsNamed(change: Change, events: seq<Event>, name: string)
    requires IsWanted(change, events) && (name in change.edits || name in change.removals)
    ensures exists i :: 0 <= i < |events| && NameIn(events[i]).Some? && WantedOf(events, NameIn(events[i]).value) != AsItIs
  {
    assert HoldsFor(change, name, WantedOf(events, name));
    if forall k :: 0 <= k < |events| ==> NameIn(events[k]) != Some(name) {
      OnlyOfNamed(events, name);
    } else {
      var i :| 0 <= i < |events| && NameIn(events[i]) == Some(name);
      assert WantedOf(events, NameIn(events[i]).value) != AsItIs;
    }
  }

  /** What was sent is what was wanted when it was saved. */
  ghost predicate SentIsTold(e: Editor, events: seq<Event>) {
    && (SavedAt(events).Some? ==> SavedAt(events).value < |events|)
    && (e.sent.Some? && SavedAt(events).Some? ==> IsWanted(e.sent.value, events[..SavedAt(events).value]))
  }

  /** The names shown as saved are those something was wanted of then. */
  ghost predicate ShownIsTold(e: Editor, events: seq<Event>) {
    && (ShownAt(events).Some? ==> ShownAt(events).value < |events|)
    && (ShownAt(events) == None ==> e.savedNames == {})
    && (ShownAt(events).Some? ==>
          forall name: string :: name in e.savedNames <==> WantedOf(events[..ShownAt(events).value], name) != AsItIs)
    && e.error == RefusalShown(events)
  }

  lemma InputMoves(e: Editor, events: seq<Event>, event: Event)
    requires InputIsTold(e, events) && IsWanted(Pending(e), events) && e.saving == e.sent.Some?
    ensures InputIsTold(EditorStep(e, event), events + [event])
  {
    assert (events + [event])[..|events|] == events;
    PendingIffWanted(Pending(e), events);
  }

  lemma SentMoves(e: Editor, events: seq<Event>, event: Event)
    requires InputIsTold(e, events) && IsWanted(Pending(e), events) && e.saving == e.sent.Some? && SentIsTold(e, events)
    ensures SentIsTold(EditorStep(e, event), events + [event])
  {
    assert (events + [event])[..|events|] == events;
    PendingIffWanted(Pending(e), events);
    var at := SavedAt(events + [event]);
    if at.Some? && at.value < |events| {
      assert (events + [event])[..at.value] == events[..at.value];
    }
  }

  lemma SentNamesAreWanted(change: Change, events: seq<Event>)
    requires IsWanted(change, events)
    ensures forall name: string :: name in NamesOf(change) <==> WantedOf(events, name) != AsItIs
  {
    forall name: string ensures name in NamesOf(change) <==> WantedOf(events, name) != AsItIs {
      assert HoldsFor(change, name, WantedOf(events, name));
    }
  }

  lemma ShownMoves(e: Editor, events: seq<Event>, event: Event)
    requires InputIsTold(e, events) && IsWanted(Pending(e), events) && e.saving == e.sent.Some?
    requires SentIsTold(e, events) && ShownIsTold(e, events)
    ensures ShownIsTold(EditorStep(e, event), events + [event])
  {
    assert (events + [event])[..|events|] == events;
    PendingIffWanted(Pending(e), events);
    if event == Written && e.sent.Some? {
      SentNamesAreWanted(e.sent.value, events[..SavedAt(events).value]);
    }
    var at := ShownAt(events + [event]);
    if at.Some? && at.value < |events| {
      assert (events + [event])[..at.value] == events[..at.value];
    }
  }

  lemma WantedMoves(e: Editor, events: seq<Event>, event: Event)
    requires InputIsTold(e, events) && IsWanted(Pending(e), events)
    ensures IsWanted(Pending(EditorStep(e, event)), events + [event])
  {
    forall name: string ensures HoldsFor(Pending(EditorStep(e, event)), name, WantedOf(events + [event], name)) {
      NameMoves(e, events, event, name);
    }
  }

  /**
   * After any events, the editor holds for every name exactly what is wanted of
   * it, told from the events alone; the open input and its text are the last
   * ones; the request in flight is what was wanted when it was saved; and what
   * is shown of a save or a refusal is of the last one still shown.
   */
  lemma {:induction false} EditorHoldsWhatIsWanted(events: seq<Event>)
    ensures IsWanted(Pending(Ran(events)), events)
    ensures InputIsTold(Ran(events), events)
    ensures SentIsTold(Ran(events), events)
    ensures ShownIsTold(Ran(events), events)
    decreases |events|
  {
    if events != [] {
      var n := |events| - 1;
      var e := Ran(events[..n]);
      EditorHoldsWhatIsWanted(events[..n]);
      RunsStayTidy(events[..n]);
      assert events == events[..n] + [events[n]];
      WantedMoves(e, events[..n], events[n]);
      InputMoves(e, events[..n], events[n]);
      SentMoves(e, events[..n], events[n]);
      ShownMoves(e, events[..n], events[n]);
    }
  }

  /** A removal taken back is not sent, whatever else is. */
  lemma UndoneIsNotSent(events: seq<Event>, name: string)
    requires WantedBy(events + [Undo(name)], |events| + 1) && SavedAt(events) == None
    ensures var saved := Ran(events + [Undo(name)] + [Save]);
            && saved.sent.Some? && name !in saved.sent.value.edits && name !in saved.sent.value.removals
  {
    var undone := events + [Undo(name)];
    assert undone[..|events|] == events && (undone + [Save])[..|undone|] == undone;
    EditorHoldsWhatIsWanted(undone + [Save]);
    assert SavedAt(undone + [Save]) == Some(|undone|);
    assert HoldsFor(Ran(undone + [Save]).sent.value, name, WantedOf(undone, name));
  }
}
