/**
 * The checks a change of an instance's variables passes before it goes to the
 * server (`check` in `backend/src/variables/variables.service.ts`).
 */
module Variables {
  import opened Wrappers

  /** A JSON value where a text is due. */
  datatype Value = Text(text: string) | NotText

  datatype Entry = Entry(name: string, value: Value)

  datatype SetField = NoSet | NotAnObject | Entries(entries: seq<Entry>)

  datatype UnsetField = NoUnset | NotAList | Names(names: seq<Value>)

  datatype Body = Body(sets: SetField, unsets: UnsetField)

  datatype Problem =
    | Misshapen
    | NothingToChange
    | NotAName(given: Value)
    | MustBeText(name: string)
    | NoValue(name: string)
    | TooLong(name: string)
    | HasControl(name: string)
    | BothSetAndUnset(name: string)

  const MAX_VALUE := 4096

  predicate NameChar(c: char) {
    'A' <= c <= 'Z' || '0' <= c <= '9' || c == '_'
  }

  predicate VariableName(name: string) {
    name != "" && 'A' <= name[0] <= 'Z' && forall i :: 0 <= i < |name| ==> NameChar(name[i])
  }

  predicate Control(c: char) {
    c <= '\U{1f}' || c == '\U{7f}'
  }

  predicate Plain(text: string) {
    forall i :: 0 <= i < |text| ==> !Control(text[i])
  }

  function CheckEntry(e: Entry): Option<Problem> {
    if !VariableName(e.name) then Some(NotAName(Text(e.name)))
    else if e.value.NotText? then Some(MustBeText(e.name))
    else if e.value.text == "" then Some(NoValue(e.name))
    else if |e.value.text| > MAX_VALUE then Some(TooLong(e.name))
    else if !Plain(e.value.text) then Some(HasControl(e.name))
    else None
  }

  /** The first entry at fault decides. */
  function CheckEntries(entries: seq<Entry>): Option<Problem> {
    if entries == [] then None
    else if CheckEntry(entries[0]).Some? then CheckEntry(entries[0])
    else CheckEntries(entries[1..])
  }

  predicate InSet(name: string, entries: seq<Entry>) {
    exists i :: 0 <= i < |entries| && entries[i].name == name
  }

  function CheckName(name: Value, entries: seq<Entry>): Option<Problem> {
    if name.NotText? || !VariableName(name.text) then Some(NotAName(name))
    else if InSet(name.text, entries) then Some(BothSetAndUnset(name.text))
    else None
  }

  function CheckNames(names: seq<Value>, entries: seq<Entry>): Option<Problem> {
    if names == [] then None
    else if CheckName(names[0], entries).Some? then CheckName(names[0], entries)
    else CheckNames(names[1..], entries)
  }

  function SetOf(body: Body): seq<Entry> {
    if body.sets.Entries? then body.sets.entries else []
  }

  function UnsetOf(body: Body): seq<Value> {
    if body.unsets.Names? then body.unsets.names else []
  }

  function Check(body: Body): Option<Problem> {
    if body.sets.NotAnObject? || body.unsets.NotAList? then Some(Misshapen)
    else if SetOf(body) == [] && UnsetOf(body) == [] then Some(NothingToChange)
    else if CheckEntries(SetOf(body)).Some? then CheckEntries(SetOf(body))
    else CheckNames(UnsetOf(body), SetOf(body))
  }

  /** What each refusal says is so. */
  ghost predicate Justified(problem: Problem, body: Body) {
    match problem
    case Misshapen => body.sets.NotAnObject? || body.unsets.NotAList?
    case NothingToChange => SetOf(body) == [] && UnsetOf(body) == []
    case NotAName(given) =>
      (given.NotText? || !VariableName(given.text))
      && (given in UnsetOf(body) || (given.Text? && InSet(given.text, SetOf(body))))
    case MustBeText(name) => Entry(name, NotText) in SetOf(body)
    case NoValue(name) => Entry(name, Text("")) in SetOf(body)
    case TooLong(name) => exists e :: e in SetOf(body) && e.name == name && e.value.Text? && |e.value.text| > 4096
    case HasControl(name) => exists e :: e in SetOf(body) && e.name == name && e.value.Text? && !Plain(e.value.text)
    case BothSetAndUnset(name) => InSet(name, SetOf(body)) && Text(name) in UnsetOf(body)
  }

  lemma {:induction false} EntryAtFault(entries: seq<Entry>) returns (e: Entry)
    requires CheckEntries(entries).Some?
    ensures e in entries && CheckEntries(entries) == CheckEntry(e) && InSet(e.name, entries)
  {
    if CheckEntry(entries[0]).Some? {
      e := entries[0];
    } else {
      e := EntryAtFault(entries[1..]);
      var i :| 0 <= i < |entries[1..]| && entries[1..][i].name == e.name;
      assert entries[i + 1].name == e.name;
    }
  }

  lemma {:induction false} NameAtFault(names: seq<Value>, entries: seq<Entry>) returns (name: Value)
    requires CheckNames(names, entries).Some?
    ensures name in names && CheckNames(names, entries) == CheckName(name, entries)
  {
    if CheckName(names[0], entries).Some? {
      name := names[0];
    } else {
      name := NameAtFault(names[1..], entries);
    }
  }

  lemma RefusalsAreJustified(body: Body)
    requires Check(body).Some?
    ensures Justified(Check(body).value, body)
  {
    if !body.sets.NotAnObject? && !body.unsets.NotAList? && !(SetOf(body) == [] && UnsetOf(body) == []) {
      if CheckEntries(SetOf(body)).Some? {
        var e := EntryAtFault(SetOf(body));
      } else {
        var name := NameAtFault(UnsetOf(body), SetOf(body));
      }
    }
  }

  /** A value an env file can hold, under a name it can hold. */
  predicate Writable(name: string, value: string) {
    VariableName(name) && |value| <= MAX_VALUE && Plain(value)
  }

  /** What the checks let through. */
  predicate Acceptable(entries: seq<Entry>, names: seq<Value>) {
    && (entries != [] || names != [])
    && (forall i :: 0 <= i < |entries| ==> FineEntry(entries[i]))
    && (forall i :: 0 <= i < |names| ==> FineName(names[i], entries))
  }

  predicate FineEntry(e: Entry) {
    e.value.Text? && e.value.text != "" && Writable(e.name, e.value.text)
  }

  predicate FineName(name: Value, entries: seq<Entry>) {
    name.Text? && VariableName(name.text) && !InSet(name.text, entries)
  }

  lemma {:induction false} EntriesPass(entries: seq<Entry>)
    ensures CheckEntries(entries) == None <==> forall i :: 0 <= i < |entries| ==> FineEntry(entries[i])
  {
    if entries != [] {
      EntriesPass(entries[1..]);
      assert forall i :: 0 < i < |entries| ==> entries[i] == entries[1..][i - 1];
    }
  }

  lemma {:induction false} NamesPass(names: seq<Value>, entries: seq<Entry>)
    ensures CheckNames(names, entries) == None <==> forall i :: 0 <= i < |names| ==> FineName(names[i], entries)
  {
    if names != [] {
      NamesPass(names[1..], entries);
      assert forall i :: 0 < i < |names| ==> names[i] == names[1..][i - 1];
    }
  }

  /** A change goes through exactly when it is well shaped and acceptable. */
  lemma CheckPasses(body: Body)
    ensures Check(body) == None <==>
            !body.sets.NotAnObject? && !body.unsets.NotAList? && Acceptable(SetOf(body), UnsetOf(body))
  {
    EntriesPass(SetOf(body));
    NamesPass(UnsetOf(body), SetOf(body));
  }
}
