/** What an aggregate type brings to the event store, and replaying events over a state. */
module Aggregates {
  import opened Wrappers
  import opened Records

  /**
   The methods of an aggregate type and the codecs of its events and states. `apply` takes the event's time and
   reference; a None is an error.
   */
  datatype Kind<!S(!new), !E(!new)> = Kind(
    initial: S,
    apply: (S, E, int, string) -> Option<S>,
    typeOf: E -> string,
    serialize: E -> string,
    decode: (string, string) -> Option<E>,
    encodeState: S -> Option<string>,
    decodeState: string -> Option<S>,
    frequency: int)

  /** Decoding undoes encoding, for events and for snapshots. */
  ghost predicate Faithful<S(!new), E(!new)>(k: Kind<S, E>) {
    && (forall e :: k.decode(k.typeOf(e), k.serialize(e)) == Some(e))
    && (forall s :: k.encodeState(s).Some? ==> k.decodeState(k.encodeState(s).value) == Some(s))
  }

  /** One stored event over a state. */
  function Step<S(!new), E(!new)>(k: Kind<S, E>, s: S, e: SerializedEvent): Option<S> {
    match k.decode(e.eventType, e.state)
    case None => None
    case Some(decoded) => k.apply(s, decoded, e.eventTime, e.reference)
  }

  function Replay<S(!new), E(!new)>(k: Kind<S, E>, s: S, events: seq<SerializedEvent>): Option<S> {
    if events == [] then Some(s)
    else
      match Replay(k, s, events[..|events| - 1])
      case None => None
      case Some(t) => Step(k, t, events[|events| - 1])
  }

  lemma {:induction false} ReplayFails<S(!new), E(!new)>(k: Kind<S, E>, s: S, events: seq<SerializedEvent>, n: nat)
    requires n <= |events| && Replay(k, s, events[..n]).None?
    ensures Replay(k, s, events).None?
    decreases |events| - n
  {
    if n == |events| {
      assert events[..n] == events;
    } else {
      assert events[..n + 1][..n] == events[..n];
      ReplayFails(k, s, events, n + 1);
    }
  }

  /** What loadState returns. */
  datatype AggregateState = AggregateState(aggregateId: int, snapshot: Option<Snapshot>, events: seq<SerializedEvent>)

  // Where the tail starts.
  function SequenceOf(snapshot: Option<Snapshot>): int {
    if snapshot.Some? then snapshot.value.sequence else 0
  }

  function LastSequence(a: AggregateState): int {
    if a.events != [] then a.events[|a.events| - 1].sequence
    else if a.snapshot.Some? then a.snapshot.value.sequence else 0
  }

  // The state that the tail is replayed over: the snapshot's, or whatever the object holds.
  function Base<S(!new), E(!new)>(k: Kind<S, E>, held: S, snapshot: Option<Snapshot>): Option<S> {
    if snapshot.Some? then k.decodeState(snapshot.value.state) else Some(held)
  }

  function Rebuild<S(!new), E(!new)>(k: Kind<S, E>, held: S, a: AggregateState): Option<S> {
    match Base(k, held, a.snapshot)
    case None => None
    case Some(s) => Replay(k, s, a.events)
  }

  // ---------------- Applying a new event ----------------

  /** The event as it is staged: numbered next, and serialized. */
  function Publish<S(!new), E(!new)>(k: Kind<S, E>, id: int, sequence: int, e: E, time: int,
                                     reference: string): SerializedEvent {
    SerializedEvent(0, id, k.typeOf(e), k.serialize(e), sequence + 1, reference, time)
  }

  predicate Due<S(!new), E(!new)>(k: Kind<S, E>, sequence: int) {
    0 < k.frequency && sequence % k.frequency == 0
  }

  /** What applying a new event does: the next state, the event to save, and a snapshot when one is due. */
  datatype Staging<S> = Refused | NoSnapshotState | Staged(state: S, event: SerializedEvent, snapshots: seq<Snapshot>)

  function Stage<S(!new), E(!new)>(k: Kind<S, E>, id: int, s: S, sequence: int, e: E, time: int,
                                   reference: string): Staging<S> {
    match k.apply(s, e, time, reference)
    case None => Refused
    case Some(next) =>
      var event := Publish(k, id, sequence, e, time, reference);
      if !Due(k, event.sequence) then Staged(next, event, [])
      else
        match k.encodeState(next)
        case None => NoSnapshotState
        case Some(encoded) => Staged(next, event, [Snapshot(id, encoded, event.sequence)])
  }
}
