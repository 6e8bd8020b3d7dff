/** Aggregates whose events carry fields of their state, and the chain of decoders that reads those events back. */
module StateAggregates {
  import opened Wrappers
  import opened Records
  import opened EventStreams
  import opened Aggregates
  import opened FieldMerge
  import opened Streams
  import opened StreamTheorems
  import opened StreamReplays

  /** A decoded event; only state events carry fields. */
  datatype EventState =
    | StateEvent(eventType: string, fields: seq<EventField>)
    | OtherEvent(eventType: string, content: string)

  /** What one decoder makes of an event: nil, an error, or an event. */
  datatype Decoded = NotMine | Broken | Is(event: EventState)

  type Decoder = (string, string) -> Decoded

  datatype DecodeResult = Event(isStateEvent: bool, event: EventState) | DecoderError | NoDecoder | Panic

  /** The answer of the first decoder that has one. */
  function FirstDecoded(decoders: seq<Decoder>, eventType: string, state: string): Decoded {
    if decoders == [] then NotMine
    else
      var earlier := FirstDecoded(decoders[..|decoders| - 1], eventType, state);
      if earlier == NotMine then decoders[|decoders| - 1](eventType, state) else earlier
  }

  /** An event is decoded exactly when some decoder gives it and every decoder registered before that one passes. */
  lemma {:induction false} DecodedExactly(decoders: seq<Decoder>, eventType: string, state: string, e: EventState)
    ensures FirstDecoded(decoders, eventType, state) == Is(e)
            <==> exists i :: 0 <= i < |decoders| && decoders[i](eventType, state) == Is(e)
                             && forall j :: 0 <= j < i ==> decoders[j](eventType, state) == NotMine
    ensures FirstDecoded(decoders, eventType, state) == NotMine
            <==> forall i :: 0 <= i < |decoders| ==> decoders[i](eventType, state) == NotMine
  {
    if decoders != [] {
      var init := decoders[..|decoders| - 1];
      DecodedExactly(init, eventType, state, e);
      assert forall i :: 0 <= i < |init| ==> init[i] == decoders[i];
      if exists i :: 0 <= i < |decoders| && decoders[i](eventType, state) == Is(e)
                     && forall j :: 0 <= j < i ==> decoders[j](eventType, state) == NotMine {
        var i :| 0 <= i < |decoders| && decoders[i](eventType, state) == Is(e)
                 && forall j :: 0 <= j < i ==> decoders[j](eventType, state) == NotMine;
        if i < |init| {
          assert init[i](eventType, state) == Is(e);
        }
      }
      if FirstDecoded(init, eventType, state) == Is(e) {
        var i :| 0 <= i < |init| && init[i](eventType, state) == Is(e)
                 && forall j :: 0 <= j < i ==> init[j](eventType, state) == NotMine;
        assert decoders[i](eventType, state) == Is(e);
      }
    }
  }

  lemma {:induction false} FirstStands(decoders: seq<Decoder>, eventType: string, state: string, n: nat)
    requires n <= |decoders| && FirstDecoded(decoders[..n], eventType, state) != NotMine
    ensures FirstDecoded(decoders, eventType, state) == FirstDecoded(decoders[..n], eventType, state)
    decreases |decoders| - n
  {
    if n == |decoders| {
      assert decoders[..n] == decoders;
    } else {
      assert decoders[..n + 1][..n] == decoders[..n];
      FirstStands(decoders, eventType, state, n + 1);
    }
  }

  /** The registered decoders. */
  class Decoders {
    var decoders: seq<Decoder>

    constructor ()
      ensures decoders == []
    {
      decoders := [];
    }

    method RegisterEventDecoder(added: seq<Decoder>)
      modifies this
      ensures decoders == old(decoders) + added
    {
      for i := 0 to |added|
        invariant decoders == old(decoders) + added[..i]
      {
        decoders := decoders + [added[i]];
      }
      assert added[..|added|] == added;
    }

    method DecodeEvent(eventType: string, state: string) returns (r: DecodeResult)
      ensures r == Panic <==> decoders == []
      ensures r != Panic ==>
                r == match FirstDecoded(decoders, eventType, state)
                     case NotMine => NoDecoder
                     case Broken => DecoderError
                     case Is(e) => Event(e.StateEvent?, e)
    {
      if |decoders| == 0 {
        return Panic;
      }
      for i := 0 to |decoders|
        invariant FirstDecoded(decoders[..i], eventType, state) == NotMine
      {
        assert decoders[..i + 1][..i] == decoders[..i];
        var decoded := decoders[i](eventType, state);
        if decoded == Broken {
          FirstStands(decoders, eventType, state, i + 1);
          return DecoderError;
        }
        if decoded.Is? {
          FirstStands(decoders, eventType, state, i + 1);
          return Event(decoded.event.StateEvent?, decoded.event);
        }
      }
      assert decoders[..|decoders|] == decoders;
      return NoDecoder;
    }
  }

  // ---------------- State aggregates as aggregates ----------------

  const SNAPSHOT_FREQUENCY := 10

  datatype StateType = StateType(
    initial: Fields,
    convert: Conversion,
    decoders: seq<Decoder>,
    serialize: EventState -> string,
    encodeState: Fields -> Option<string>,
    decodeState: string -> Option<Fields>)

  function Decode(decoders: seq<Decoder>, eventType: string, state: string): Option<EventState> {
    match FirstDecoded(decoders, eventType, state)
    case Is(e) => Some(e)
    case _ => None
  }

  function ApplyEventState(t: StateType, s: Fields, e: EventState): Option<Fields> {
    if e.StateEvent? then Merge(s, e.fields, t.convert) else None
  }

  function KindOf(t: StateType): Kind<Fields, EventState> {
    Kind(t.initial, (s, e, time, reference) => ApplyEventState(t, s, e), (e: EventState) => e.eventType, t.serialize,
         (eventType, state) => Decode(t.decoders, eventType, state), t.encodeState, t.decodeState, SNAPSHOT_FREQUENCY)
  }

  /** State aggregates do not look at times, so every run saves their events alike. */
  lemma {:induction false} StateEventsSavedAlike(ks: Kinds<Fields, EventState>, moves: seq<Move<EventState>>, id: int,
                                                 t: StateType)
    requires ks(id) == KindOf(t)
    ensures RunSavesAlike(ks, moves, id)
  {
    if moves != [] {
      var init, m := moves[..|moves| - 1], moves[|moves| - 1];
      StateEventsSavedAlike(ks, init, id, t);
      if Run(ks, init).Some? {
        forall r: Row<Fields>, now | r.event.aggregateId == id
          ensures Alike(ks(id), r, now)
        {
        }
      }
    }
  }

  /** In every run, snapshots of a state aggregate sit exactly at its tenth, twentieth and so on event. */
  lemma SnapshotsEveryTen(ks: Kinds<Fields, EventState>, moves: seq<Move<EventState>>, id: int, t: StateType,
                          sequence: int)
    requires Run(ks, moves).Some? && ks(id) == KindOf(t)
    ensures var w := Run(ks, moves).value;
            HasSnapshotAt(w, id, sequence) <==> sequence % 10 == 0 && 1 <= sequence <= Length(w, id)
  {
    SnapshotSpacing(ks, moves, id, sequence);
  }

  // The fields that the events carry.
  function FieldsOf(decoders: seq<Decoder>, events: seq<SerializedEvent>): seq<seq<EventField>> {
    if events == [] then []
    else
      var e := events[|events| - 1];
      var rest := FieldsOf(decoders, events[..|events| - 1]);
      match FirstDecoded(decoders, e.eventType, e.state)
      case Is(StateEvent(_, fields)) => rest + [fields]
      case _ => rest
  }

  lemma {:induction false} ReplayIsMerge(t: StateType, events: seq<SerializedEvent>)
    requires Replay(KindOf(t), t.initial, events).Some?
    ensures MergeAll(t.initial, FieldsOf(t.decoders, events), t.convert) == Replay(KindOf(t), t.initial, events)
  {
    if events != [] {
      var init, e := events[..|events| - 1], events[|events| - 1];
      ReplayIsMerge(t, init);
      var fields := FirstDecoded(t.decoders, e.eventType, e.state).event.fields;
      assert FieldsOf(t.decoders, events) == FieldsOf(t.decoders, init) + [fields];
      assert FieldsOf(t.decoders, events)[..|FieldsOf(t.decoders, events)| - 1] == FieldsOf(t.decoders, init);
    }
  }

  /**
   After every run of concurrent contexts, a state aggregate loaded from its snapshot and tail has in each field the
   converted value of the last of all its committed events that carries one, or the field's initial value.
   */
  lemma {:induction false} LoadedFieldsAreLastWritten(ks: Kinds<Fields, EventState>, moves: seq<Move<EventState>>,
                                                      id: int, t: StateType)
    requires Run(ks, moves).Some?
    requires ks(id) == KindOf(t) && Faithful(ks(id)) && Lawful(t.convert)
    ensures var w := Run(ks, moves).value;
            var loaded := Rebuild(ks(id), t.initial, LoadNow(w, id));
            var written := FieldsOf(t.decoders, Above(Events(w.rows), id, 0));
            && loaded.Some? && SameTypes(t.initial, loaded.value)
            && forall name :: name in t.initial ==>
                 match LastValue(written, name)
                 case None => loaded.value[name] == t.initial[name]
                 case Some(v) => t.convert(v, t.initial[name].typeName) == Some(loaded.value[name])
  {
    StateEventsSavedAlike(ks, moves, id, t);
    AlikeLoadSucceeds(ks, moves, id);
    var w := Run(ks, moves).value;
    ReplayIsMerge(t, Above(Events(w.rows), id, 0));
    LastWriterWins(t.initial, FieldsOf(t.decoders, Above(Events(w.rows), id, 0)), t.convert);
  }
}
