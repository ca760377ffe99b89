/**
 * The variables editor of one instance
 * (`frontend/src/app/features/instance-detail/instance-variables/instance-variables.ts`):
 * edits and removals held until saved, and the request that saves them.
 */
module VariablesEditor {
  import opened Wrappers
  import opened Variables

  datatype Change = Change(edits: map<string, string>, removals: seq<string>)

  /** `sent` is the change of the request in flight, which the promise's continuation holds. */
  datatype Editor = Editor(
    edits: map<string, string>, removals: seq<string>, editing: Option<string>, draft: string,
    saving: bool, sent: Option<Change>, error: Option<string>, savedNames: set<string>)

  datatype Event =
    | Open(name: string)
    | TypeIn(text: string)
    | Cancel
    | Keep
    | Remove(name: string)
    | Undo(name: string)
    | Discard
    | Save
    | Written
    | Refused(message: string)
    | Dismiss

  const FRESH := Editor(map[], [], None, "", false, None, None, {})

  function Without(names: seq<string>, name: string): seq<string> {
    if names == [] then []
    else (if names[0] == name then [] else [names[0]]) + Without(names[1..], name)
  }

  predicate HasPending(e: Editor) {
    e.edits != map[] || e.removals != []
  }

  function Pending(e: Editor): Change {
    Change(e.edits, e.removals)
  }

  function NamesOf(change: Change): set<string> {
    change.edits.Keys + set name | name in change.removals
  }

  function Discarded(e: Editor): Editor {
    e.(edits := map[], removals := [], editing := None, draft := "", error := None)
  }

  function EditorStep(e: Editor, event: Event): Editor {
    match event
    case Open(name) => e.(error := None, editing := Some(name), draft := "")
    case TypeIn(text) => e.(draft := text)
    case Cancel => e.(editing := None, draft := "")
    case Keep =>
      if e.editing.GetOr("") == "" || e.draft == "" then e
      else
        var name := e.editing.value;
        e.(edits := e.edits[name := e.draft], removals := Without(e.removals, name), editing := None, draft := "")
    case Remove(name) =>
      e.(error := None, edits := e.edits - {name},
         removals := if name in e.removals then e.removals else e.removals + [name])
    case Undo(name) => e.(edits := e.edits - {name}, removals := Without(e.removals, name))
    case Discard => Discarded(e)
    case Save =>
      if !HasPending(e) || e.saving then e else e.(saving := true, error := None, sent := Some(Pending(e)))
    case Written =>
      if e.sent.None? then e
      else Discarded(e).(savedNames := NamesOf(e.sent.value), saving := false, sent := None)
    case Refused(message) =>
      if e.sent.None? then e else e.(error := Some(message), saving := false, sent := None)
    case Dismiss => e.(savedNames := {})
  }

  // ---------------------------------------------------------------------------
  // The object.

  class InstanceVariables {
    var edits: map<string, string>
    var removals: seq<string>
    var editing: Option<string>
    var draft: string
    var saving: bool
    var sent: Option<Change>
    var error: Option<string>
    var savedNames: set<string>

    function View(): Editor
      reads this
    {
      Editor(edits, removals, editing, draft, saving, sent, error, savedNames)
    }

    constructor ()
      ensures View() == FRESH
    {
      edits, removals, editing, draft := map[], [], None, "";
      saving, sent, error, savedNames := false, None, None, {};
    }

    method Open(name: string)
      modifies this
      ensures View() == EditorStep(old(View()), Event.Open(name))
    {
      error := None;
      editing := Some(name);
      draft := "";
    }

    method Cancel()
      modifies this
      ensures View() == EditorStep(old(View()), Event.Cancel)
    {
      editing := None;
      draft := "";
    }

    method Keep()
      modifies this
      ensures View() == EditorStep(old(View()), Event.Keep)
    {
      var name, value := editing, draft;
      if name.None? || name.value == "" || value == "" {
        return;
      }
      edits := edits[name.value := value];
      removals := Without(removals, name.value);
      Cancel();
    }

    method Remove(name: string)
      modifies this
      ensures View() == EditorStep(old(View()), Event.Remove(name))
    {
      error := None;
      edits := edits - {name};
      if name !in removals {
        removals := removals + [name];
      }
    }

    method Undo(name: string)
      modifies this
      ensures View() == EditorStep(old(View()), Event.Undo(name))
    {
      edits := edits - {name};
      removals := Without(removals, name);
    }

    method Discard()
      modifies this
      ensures View() == Discarded(old(View()))
    {
      edits := map[];
      removals := [];
      Cancel();
      error := None;
    }

    /** `save`, up to its `await`. */
    method Save() returns (request: Option<Change>)
      modifies this
      ensures View() == EditorStep(old(View()), Event.Save)
      ensures request == if HasPending(old(View())) && !old(saving) then sent else None
    {
      if (edits == map[] && removals == []) || saving {
        return None;
      }
      saving := true;
      error := None;
      sent := Some(Change(edits, removals));
      request := sent;
    }

    /** What follows it when the server took the change. */
    method OnWritten()
      requires sent.Some?
      modifies this
      ensures View() == EditorStep(old(View()), Written)
    {
      Discard();
      savedNames := NamesOf(sent.value);
      saving, sent := false, None;
    }

    /** And when it did not. */
    method OnRefused(message: string)
      requires sent.Some?
      modifies this
      ensures View() == EditorStep(old(View()), Refused(message))
    {
      error := Some(message);
      saving, sent := false, None;
    }
  }

  // ---------------------------------------------------------------------------
  // Every run.

  predicate NoRepeats(names: seq<string>) {
    names == [] || (names[0] !in names[1..] && NoRepeats(names[1..]))
  }

  lemma {:induction false} WithoutLeavesOthers(names: seq<string>, name: string, other: string)
    ensures other in Without(names, name) <==> other in names && other != name
  {
    if names != [] {
      WithoutLeavesOthers(names[1..], name, other);
    }
  }

  lemma {:induction false} WithoutRepeatsNothing(names: seq<string>, name: string)
    requires NoRepeats(names)
    ensures NoRepeats(Without(names, name))
  {
    if names != [] {
      WithoutRepeatsNothing(names[1..], name);
      if names[0] != name {
        WithoutLeavesOthers(names[1..], name, names[0]);
        assert Without(names, name)[1..] == Without(names[1..], name);
      } else {
        assert Without(names, name) == Without(names[1..], name);
      }
    }
  }

  lemma {:induction false} OneMoreName(names: seq<string>, name: string)
    requires NoRepeats(names) && name !in names
    ensures NoRepeats(names + [name])
  {
    if names != [] {
      OneMoreName(names[1..], name);
      assert (names + [name])[1..] == names[1..] + [name];
    }
  }

  /** Edits and removals apart, no name removed twice, no edit without a name or a value. */
  ghost predicate Tidy(change: Change) {
    NoRepeats(change.removals) && forall name :: name in change.edits ==> TidyEdit(change, name)
  }

  predicate TidyEdit(change: Change, name: string)
    requires name in change.edits
  {
    name != "" && change.edits[name] != "" && name !in change.removals
  }

  predicate Empty(change: Change) {
    change.edits == map[] && change.removals == []
  }

  ghost predicate Coherent(e: Editor) {
    && Tidy(Pending(e))
    && (e.saving <==> e.sent.Some?)
    && (e.sent.Some? ==> Tidy(e.sent.value) && !Empty(e.sent.value))
  }

  function Ran(events: seq<Event>): Editor
    decreases |events|
  {
    if events == [] then FRESH
    else
      var n := |events| - 1;
      EditorStep(Ran(events[..n]), events[n])
  }

  lemma KeepStaysTidy(change: Change, name: string, value: string)
    requires Tidy(change) && name != "" && value != ""
    ensures Tidy(Change(change.edits[name := value], Without(change.removals, name)))
  {
    var after := Change(change.edits[name := value], Without(change.removals, name));
    WithoutRepeatsNothing(change.removals, name);
    forall n | n in after.edits ensures TidyEdit(after, n) {
      WithoutLeavesOthers(change.removals, name, n);
      if n != name { assert TidyEdit(change, n); }
    }
  }

  lemma RemoveStaysTidy(change: Change, name: string)
    requires Tidy(change)
    ensures Tidy(Change(change.edits - {name}, if name in change.removals then change.removals else change.removals + [name]))
  {
    var after := Change(change.edits - {name}, if name in change.removals then change.removals else change.removals + [name]);
    if name !in change.removals {
      OneMoreName(change.removals, name);
    }
    forall n | n in after.edits ensures TidyEdit(after, n) {
      assert TidyEdit(change, n);
    }
  }

  lemma UndoStaysTidy(change: Change, name: string)
    requires Tidy(change)
    ensures Tidy(Change(change.edits - {name}, Without(change.removals, name)))
  {
    var after := Change(change.edits - {name}, Without(change.removals, name));
    WithoutRepeatsNothing(change.removals, name);
    forall n | n in after.edits ensures TidyEdit(after, n) {
      assert TidyEdit(change, n);
      WithoutLeavesOthers(change.removals, name, n);
    }
  }

  lemma StepKeepsCoherence(e: Editor, event: Event)
    requires Coherent(e)
    ensures Coherent(EditorStep(e, event))
  {
    match event
    case Keep =>
      if e.editing.GetOr("") != "" && e.draft != "" {
        KeepStaysTidy(Pending(e), e.editing.value, e.draft);
      }
    case Remove(name) => RemoveStaysTidy(Pending(e), name);
    case Undo(name) => UndoStaysTidy(Pending(e), name);
    case Open(_) =>
    case TypeIn(_) =>
    case Cancel =>
    case Discard =>
    case Save =>
    case Written =>
    case Refused(_) =>
    case Dismiss =>
  }

  /** Whatever the operator does, and however the requests end, in any order. */
  lemma {:induction false} RunsStayTidy(events: seq<Event>)
    ensures Tidy(Pending(Ran(events)))
    ensures Ran(events).saving <==> Ran(events).sent.Some?
    ensures Ran(events).sent.Some? ==> Tidy(Ran(events).sent.value) && !Empty(Ran(events).sent.value)
    decreases |events|
  {
    if events != [] {
      var n := |events| - 1;
      RunsStayTidy(events[..n]);
      StepKeepsCoherence(Ran(events[..n]), events[n]);
    }
  }

  // ---------------------------------------------------------------------------
  // What is sent passes the server's checks.

  /** The entries of an object, in whatever order it has them. */
  predicate EntriesOf(entries: seq<Entry>, edits: map<string, string>) {
    && (forall i :: 0 <= i < |entries| ==> IsEntry(entries[i], edits))
    && (forall name :: name in edits ==> InSet(name, entries))
  }

  predicate IsEntry(entry: Entry, edits: map<string, string>) {
    entry.name in edits && entry.value == Text(edits[entry.name])
  }

  function Texts(names: seq<string>): (values: seq<Value>)
    ensures |values| == |names| && forall i :: 0 <= i < |names| ==> values[i] == Text(names[i])
  {
    if names == [] then [] else [Text(names[0])] + Texts(names[1..])
  }

  function Payload(entries: seq<Entry>, change: Change): Body {
    Body(Entries(entries), Names(Texts(change.removals)))
  }

  /** The names are variable names, and the values fit on a line of an env file. */
  ghost predicate Storable(change: Change) {
    && (forall name :: name in change.edits ==> Writable(name, change.edits[name]))
    && (forall i :: 0 <= i < |change.removals| ==> VariableName(change.removals[i]))
  }

  /** The faults the editor leaves to the server's checks: of a name's or a value's characters, or a value's length. */
  predicate OfCharacters(p: Problem) {
    p.NotAName? || p.TooLong? || p.HasControl?
  }

  lemma {:induction false} EntriesFailOnCharacters(entries: seq<Entry>)
    requires forall i :: 0 <= i < |entries| ==> entries[i].value.Text? && entries[i].value.text != ""
    requires CheckEntries(entries).Some?
    ensures OfCharacters(CheckEntries(entries).value)
  {
    if CheckEntry(entries[0]).None? {
      EntriesFailOnCharacters(entries[1..]);
    }
  }

  lemma {:induction false} NamesFailOnCharacters(names: seq<Value>, entries: seq<Entry>)
    requires forall i :: 0 <= i < |names| ==> names[i].Text? && !InSet(names[i].text, entries)
    requires CheckNames(names, entries).Some?
    ensures OfCharacters(CheckNames(names, entries).value)
  {
    if CheckName(names[0], entries).None? {
      NamesFailOnCharacters(names[1..], entries);
    }
  }

  lemma EntriesAreTidy(change: Change, entries: seq<Entry>)
    requires Tidy(change) && EntriesOf(entries, change.edits)
    ensures forall i :: 0 <= i < |entries| ==> entries[i].value.Text? && entries[i].value.text != ""
    ensures forall i :: 0 <= i < |change.removals| ==> !InSet(change.removals[i], entries)
  {
    forall i | 0 <= i < |entries| ensures entries[i].value.Text? && entries[i].value.text != "" {
      assert IsEntry(entries[i], change.edits) && TidyEdit(change, entries[i].name);
    }
    forall i | 0 <= i < |change.removals| ensures !InSet(change.removals[i], entries) {
      forall j | 0 <= j < |entries| ensures entries[j].name != change.removals[i] {
        assert IsEntry(entries[j], change.edits) && TidyEdit(change, entries[j].name);
      }
    }
  }

  /** Where every check but those of characters passes already. */
  lemma PayloadFailsOnCharacters(change: Change, entries: seq<Entry>)
    requires Tidy(change) && !Empty(change) && EntriesOf(entries, change.edits)
    ensures Check(Payload(entries, change)).Some? ==> OfCharacters(Check(Payload(entries, change)).value)
  {
    var body := Payload(entries, change);
    EntriesAreTidy(change, entries);
    SomethingToChange(change, entries);
    if CheckEntries(entries).Some? {
      EntriesFailOnCharacters(entries);
    } else if CheckNames(UnsetOf(body), entries).Some? {
      NamesFailOnCharacters(UnsetOf(body), entries);
    }
  }

  lemma SomethingToChange(change: Change, entries: seq<Entry>)
    requires !Empty(change) && EntriesOf(entries, change.edits)
    ensures entries != [] || Texts(change.removals) != []
  {
    if change.removals == [] {
      var name :| name in change.edits;
      assert InSet(name, entries);
    }
  }

  lemma StorablePayloadPasses(change: Change, entries: seq<Entry>)
    requires Tidy(change) && !Empty(change) && EntriesOf(entries, change.edits) && Storable(change)
    ensures Check(Payload(entries, change)) == None
  {
    EntriesAreTidy(change, entries);
    SomethingToChange(change, entries);
    forall i | 0 <= i < |entries| ensures FineEntry(entries[i]) {
      assert IsEntry(entries[i], change.edits);
    }
    CheckPasses(Payload(entries, change));
  }

  lemma PassingPayloadIsStorable(change: Change, entries: seq<Entry>)
    requires EntriesOf(entries, change.edits) && Check(Payload(entries, change)) == None
    ensures Storable(change)
  {
    CheckPasses(Payload(entries, change));
    forall name | name in change.edits ensures Writable(name, change.edits[name]) {
      var i :| 0 <= i < |entries| && entries[i].name == name;
      assert FineEntry(entries[i]) && IsEntry(entries[i], change.edits);
    }
    forall i | 0 <= i < |change.removals| ensures VariableName(change.removals[i]) {
      assert FineName(Texts(change.removals)[i], entries);
    }
  }

  /**
   * In every run, a request in flight passes the server's checks if and only
   * if its names and values can be stored; there is always something to
   * change, no value is missing and nothing is both set and unset.
   */
  lemma EveryRequestIsCheckable(events: seq<Event>, entries: seq<Entry>)
    requires Ran(events).sent.Some? && EntriesOf(entries, Ran(events).sent.value.edits)
    ensures var change := Ran(events).sent.value;
            var problem := Check(Payload(entries, change));
            (problem == None <==> Storable(change)) && (problem.Some? ==> OfCharacters(problem.value))
  {
    var change := Ran(events).sent.value;
    RunsStayTidy(events);
    PayloadFailsOnCharacters(change, entries);
    if Storable(change) {
      StorablePayloadPasses(change, entries);
    } else if Check(Payload(entries, change)) == None {
      PassingPayloadIsStorable(change, entries);
    }
  }

  // ---------------------------------------------------------------------------
  // What becomes of edits made while a request is in flight.

  /** What a change does to the file of variables. */
  function Applied(file: map<string, string>, change: Change): map<string, string> {
    file + change.edits - set name | name in change.removals
  }

  /** Where the operator means the file to end up: the request in flight, then what is still pending. */
  function Intended(e: Editor, file: map<string, string>): map<string, string> {
    Applied(if e.sent.Some? then Applied(file, e.sent.value) else file, Pending(e))
  }

  /** Nothing is pending that was not sent. */
  ghost predicate Within(pending: Change, sent: Change) {
    && (forall name :: name in pending.edits ==> EditWithin(pending, sent, name))
    && (forall name :: name in pending.removals ==> name in sent.removals)
  }

  predicate EditWithin(pending: Change, sent: Change, name: string)
    requires name in pending.edits
  {
    name in sent.edits && sent.edits[name] == pending.edits[name]
  }

  /** A successful save keeps the operator's intent, whatever the file holds. */
  ghost predicate SavingKeepsIntent(e: Editor)
    requires e.sent.Some?
  {
    forall file :: Intended(EditorStep(e, Written), Applied(file, e.sent.value)) == Intended(e, file)
  }

  lemma WithinChangesNothing(file: map<string, string>, pending: Change, sent: Change)
    requires Tidy(pending) && Tidy(sent) && Within(pending, sent)
    ensures Applied(Applied(file, sent), pending) == Applied(file, sent)
  {
    var after := Applied(file, sent);
    forall name | name in pending.edits ensures name in after && after[name] == pending.edits[name] {
      assert EditWithin(pending, sent, name) && TidyEdit(sent, name);
    }
    assert after + pending.edits == after;
    assert after - (set name | name in pending.removals) == after;
  }

  lemma NewEditShows(pending: Change, sent: Change, name: string)
    requires Tidy(pending) && name in pending.edits && !EditWithin(pending, sent, name)
    ensures Applied(Applied(map[], sent), pending) != Applied(map[], sent)
  {
    assert TidyEdit(pending, name);
    assert Applied(Applied(map[], sent), pending)[name] == pending.edits[name];
  }

  lemma NewRemovalShows(pending: Change, sent: Change, name: string)
    requires name in pending.removals && name !in sent.removals
    ensures Applied(Applied(map[name := ""], sent), pending) != Applied(map[name := ""], sent)
  {
    assert name in Applied(map[name := ""], sent);
    assert name !in Applied(Applied(map[name := ""], sent), pending);
  }

  lemma WrittenLeavesNothing(e: Editor, file: map<string, string>)
    requires e.sent.Some?
    ensures Intended(EditorStep(e, Written), Applied(file, e.sent.value)) == Applied(file, e.sent.value)
  {
    var saved := Applied(file, e.sent.value);
    assert saved + map[] == saved;
    assert (set name: string | name in []) == {};
    assert saved - {} == saved;
  }

  /**
   * The save's success discards everything pending, what was sent and what was
   * not: intent survives if and only if nothing new was pending when it came.
   */
  lemma SavingKeepsIntentIffNothingNew(events: seq<Event>)
    requires Ran(events).sent.Some?
    ensures SavingKeepsIntent(Ran(events)) <==> Within(Pending(Ran(events)), Ran(events).sent.value)
  {
    var e := Ran(events);
    var pending, sent := Pending(e), e.sent.value;
    RunsStayTidy(events);
    if Within(pending, sent) {
      forall file ensures Intended(EditorStep(e, Written), Applied(file, sent)) == Intended(e, file) {
        WrittenLeavesNothing(e, file);
        WithinChangesNothing(file, pending, sent);
      }
    } else {
      var file := NewlyPendingShows(pending, sent);
      WrittenLeavesNothing(e, file);
      assert Intended(EditorStep(e, Written), Applied(file, sent)) != Intended(e, file);
    }
  }

  lemma NewlyPendingShows(pending: Change, sent: Change) returns (file: map<string, string>)
    requires Tidy(pending) && !Within(pending, sent)
    ensures Applied(Applied(file, sent), pending) != Applied(file, sent)
  {
    if name :| name in pending.edits && !EditWithin(pending, sent, name) {
      file := map[];
      NewEditShows(pending, sent, name);
    } else {
      var name :| name in pending.removals && name !in sent.removals;
      file := map[name := ""];
      NewRemovalShows(pending, sent, name);
    }
  }

  /** Only keeping another value or removing another name can come to that. */
  lemma OnlyKeepOrRemoveAddsNew(e: Editor, event: Event)
    requires Coherent(e) && e.sent.Some? && Within(Pending(e), e.sent.value)
    requires !event.Keep? && !event.Remove? && !event.Written? && !event.Refused?
    ensures EditorStep(e, event).sent == e.sent && Within(Pending(EditorStep(e, event)), e.sent.value)
  {
    var after := Pending(EditorStep(e, event));
    forall name | name in after.edits ensures EditWithin(after, e.sent.value, name) {
      assert EditWithin(Pending(e), e.sent.value, name);
    }
    if event.Undo? {
      forall name | name in after.removals ensures name in e.sent.value.removals {
        WithoutLeavesOthers(e.removals, event.name, name);
      }
    }
  }

  lemma OneMore(events: seq<Event>, event: Event)
    ensures Ran(events + [event]) == EditorStep(Ran(events), event)
  {
    assert (events + [event])[..|events|] == events;
  }

  const KEPT_ONE := [Open("A"), TypeIn("1"), Keep]

  lemma KeepOne()
    ensures Ran(KEPT_ONE) == FRESH.(edits := map["A" := "1"])
  {
    OneMore([], Open("A"));
    OneMore([] + [Open("A")], TypeIn("1"));
    OneMore([] + [Open("A")] + [TypeIn("1")], Keep);
    assert KEPT_ONE == [] + [Open("A")] + [TypeIn("1")] + [Keep];
  }

  /** As when a second value is kept while the first is being written: it is gone, and no request ever had it. */
  lemma EditWhileSavingIsLost()
    ensures var during := KEPT_ONE + [Save] + [Open("B")] + [TypeIn("2")] + [Keep];
            && Ran(during).sent == Some(Change(map["A" := "1"], []))
            && "B" in Ran(during).edits
            && Ran(during + [Written]) == FRESH.(savedNames := {"A"})
  {
    KeepOne();
    var saving := KEPT_ONE + [Save];
    OneMore(KEPT_ONE, Save);
    OneMore(saving, Open("B"));
    OneMore(saving + [Open("B")], TypeIn("2"));
    OneMore(saving + [Open("B")] + [TypeIn("2")], Keep);
    OneMore(saving + [Open("B")] + [TypeIn("2")] + [Keep], Written);
    assert NamesOf(Change(map["A" := "1"], [])) == {"A"};
  }
}
