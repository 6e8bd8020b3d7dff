/** Merging the fields of a state event into an aggregate's state. */
module FieldMerge {
  import opened Wrappers

  /** A field value with the name of its type. */
  datatype Value = Value(typeName: string, content: string)

  /** A field of an event; a nil pointer has no value. Pointers are followed before the value gets here. */
  datatype EventField = EventField(name: string, value: Option<Value>)

  /** The settable fields of a state. */
  type Fields = map<string, Value>

  /** Assignment or conversion of a value to a type, None where Go allows neither. */
  type Conversion = (Value, string) -> Option<Value>

  // What a value becomes has the type asked for.
  ghost predicate Lawful(convert: Conversion) {
    forall v, t :: convert(v, t).Some? ==> convert(v, t).value.typeName == t
  }

  // The field is copied: the state has a settable field of that name, and the event's pointer is not nil.
  predicate Carried(f: EventField, state: Fields) {
    f.name in state && f.value.Some?
  }

  predicate Fits(f: EventField, state: Fields, convert: Conversion) {
    Carried(f, state) ==> convert(f.value.value, state[f.name].typeName).Some?
  }

  // Every field that would be copied can be.
  predicate WellTyped(event: seq<EventField>, state: Fields, convert: Conversion) {
    forall i :: 0 <= i < |event| ==> Fits(event[i], state, convert)
  }

  /** The merge as a function: None where a field cannot be converted. */
  function Merge(state: Fields, event: seq<EventField>, convert: Conversion): (r: Option<Fields>) {
    if event == [] then Some(state)
    else
      match Merge(state, event[..|event| - 1], convert)
      case None => None
      case Some(s) =>
        var f := event[|event| - 1];
        if !Carried(f, s) then Some(s)
        else
          match convert(f.value.value, s[f.name].typeName)
          case None => None
          case Some(v) => Some(s[f.name := v])
  }

  // The last field of the event that has a value for `name`, if any.
  function ValueFor(event: seq<EventField>, name: string): Option<Value> {
    if event == [] then None
    else
      var f := event[|event| - 1];
      if f.name == name && f.value.Some? then f.value else ValueFor(event[..|event| - 1], name)
  }

  predicate SameTypes(a: Fields, b: Fields) {
    a.Keys == b.Keys && forall name :: name in a ==> b[name].typeName == a[name].typeName
  }

  /** Merging succeeds exactly on well-typed events, and then only the carried fields change, keeping their types. */
  lemma {:induction false} MergeExact(state: Fields, event: seq<EventField>, convert: Conversion)
    requires Lawful(convert)
    ensures Merge(state, event, convert).Some? <==> WellTyped(event, state, convert)
    ensures Merge(state, event, convert).Some? ==>
              var after := Merge(state, event, convert).value;
              && SameTypes(state, after)
              && forall name :: name in state ==>
                   match ValueFor(event, name)
                   case None => after[name] == state[name]
                   case Some(v) => convert(v, state[name].typeName) == Some(after[name])
  {
    if event != [] {
      var init := event[..|event| - 1];
      var f := event[|event| - 1];
      MergeExact(state, init, convert);
      if WellTyped(event, state, convert) {
        assert forall i :: 0 <= i < |init| ==> init[i] == event[i];
        assert Fits(event[|event| - 1], state, convert);
      }
      if Merge(state, event, convert).Some? {
        assert WellTyped(init, state, convert);
        forall i | 0 <= i < |event|
          ensures Fits(event[i], state, convert)
        {
          if i < |init| {
            assert Fits(init[i], state, convert);
          }
        }
      }
    }
  }

  lemma {:induction false} MergePrefix(state: Fields, event: seq<EventField>, convert: Conversion, n: nat)
    requires n <= |event| && Merge(state, event[..n], convert).None?
    ensures Merge(state, event, convert).None?
    decreases |event| - n
  {
    if n == |event| {
      assert event[..n] == event;
    } else {
      assert event[..n + 1][..n] == event[..n];
      MergePrefix(state, event, convert, n + 1);
    }
  }

  class State {
    var fields: Fields

    constructor (fields: Fields)
      ensures this.fields == fields
    {
      this.fields := fields;
    }

    /**
     Copies an event's fields into the state, in order. It stops at the first field that cannot be converted, and the
     fields before that one stay written.
     */
    method CopyFields(event: seq<EventField>, convert: Conversion) returns (ok: bool)
      modifies this
      ensures ok ==> Merge(old(fields), event, convert) == Some(fields)
      ensures !ok ==> Merge(old(fields), event, convert) == None
      ensures !ok ==>
                exists n :: 0 <= n < |event| && Merge(old(fields), event[..n], convert) == Some(fields)
                            && !Fits(event[n], fields, convert)
    {
      for i := 0 to |event|
        invariant Merge(old(fields), event[..i], convert) == Some(fields)
      {
        var eField := event[i];
        assert event[..i + 1][..i] == event[..i];
        if eField.name !in fields {
          continue;
        }
        if eField.value.None? {
          continue;
        }
        var converted := convert(eField.value.value, fields[eField.name].typeName);
        if converted.None? {
          MergePrefix(old(fields), event, convert, i + 1);
          return false;
        }
        fields := fields[eField.name := converted.value];
      }
      assert event[..|event|] == event;
      return true;
    }
  }

  function MergeAll(state: Fields, events: seq<seq<EventField>>, convert: Conversion): Option<Fields> {
    if events == [] then Some(state)
    else
      match MergeAll(state, events[..|events| - 1], convert)
      case None => None
      case Some(s) => Merge(s, events[|events| - 1], convert)
  }

  /** The value of the last event that has one for the field. */
  function LastValue(events: seq<seq<EventField>>, name: string): Option<Value> {
    if events == [] then None
    else
      var v := ValueFor(events[|events| - 1], name);
      if v.Some? then v else LastValue(events[..|events| - 1], name)
  }

  lemma WellTypedByTypes(event: seq<EventField>, a: Fields, b: Fields, convert: Conversion)
    requires SameTypes(a, b)
    ensures WellTyped(event, a, convert) <==> WellTyped(event, b, convert)
  {
    assert forall i :: 0 <= i < |event| ==> (Fits(event[i], a, convert) <==> Fits(event[i], b, convert));
  }

  /**
   Last writer wins: folding any events succeeds exactly when each of them is well typed for the initial state, and
   then each field is the converted value of the last event that has one for it, or its initial value.
   */
  lemma {:induction false} LastWriterWins(state: Fields, events: seq<seq<EventField>>, convert: Conversion)
    requires Lawful(convert)
    ensures MergeAll(state, events, convert).Some?
            <==> forall i :: 0 <= i < |events| ==> WellTyped(events[i], state, convert)
    ensures MergeAll(state, events, convert).Some? ==>
              var after := MergeAll(state, events, convert).value;
              && SameTypes(state, after)
              && forall name :: name in state ==>
                   match LastValue(events, name)
                   case None => after[name] == state[name]
                   case Some(v) => convert(v, state[name].typeName) == Some(after[name])
  {
    if events != [] {
      var init := events[..|events| - 1];
      var last := events[|events| - 1];
      LastWriterWins(state, init, convert);
      assert (forall i :: 0 <= i < |events| ==> WellTyped(events[i], state, convert))
        <==> (forall i :: 0 <= i < |init| ==> WellTyped(init[i], state, convert))
             && WellTyped(last, state, convert) by {
        assert forall i :: 0 <= i < |init| ==> init[i] == events[i];
        assert events[|events| - 1] == last;
      }
      if MergeAll(state, init, convert).Some? {
        var s := MergeAll(state, init, convert).value;
        MergeExact(s, last, convert);
        WellTypedByTypes(last, state, s, convert);
      }
    }
  }

  /** Merging an event twice in a row is merging it once. */
  lemma MergeTwice(state: Fields, event: seq<EventField>, convert: Conversion)
    requires Lawful(convert) && Merge(state, event, convert).Some?
    ensures Merge(Merge(state, event, convert).value, event, convert) == Merge(state, event, convert)
  {
    var once := Merge(state, event, convert).value;
    MergeExact(state, event, convert);
    WellTypedByTypes(event, state, once, convert);
    MergeExact(once, event, convert);
    var twice := Merge(once, event, convert).value;
    assert forall name :: name in state ==> twice[name] == once[name];
    assert twice == once;
  }
}
