/** A context of the event store: aggregates loaded into objects, events and snapshots staged in order. */
module Contexts {
  import opened Wrappers
  import opened Records
  import opened Aggregates

  class Aggregate<S(!new)> {
    var id: int
    var state: S
    var sequence: int

    /** A fresh aggregate object. */
    constructor (initial: S)
      ensures id == 0 && state == initial && sequence == 0
    {
      id, state, sequence := 0, initial, 0;
    }
  }

  datatype ApplyResult = Applied | EventRefused | SnapshotRefused

  class EventStoreContext {
    var capturedEvents: seq<SerializedEvent>
    var snapshots: seq<Snapshot>

    constructor ()
      ensures capturedEvents == [] && snapshots == []
    {
      capturedEvents, snapshots := [], [];
    }

    method Publish(event: SerializedEvent)
      modifies `capturedEvents
      ensures capturedEvents == old(capturedEvents) + [event]
    {
      capturedEvents := capturedEvents + [event];
    }

    method SaveSnapshot(snapshot: Snapshot)
      modifies `snapshots
      ensures snapshots == old(snapshots) + [snapshot]
    {
      snapshots := snapshots + [snapshot];
    }

    /**
     Applies a new event: the object moves to the next state and sequence, the event is staged with that sequence such
     that replaying it repeats the move, and a snapshot of the new state is staged when the sequence is due.
     */
    method ApplyEventTo<S(!new), E(!new)>(k: Kind<S, E>, agg: Aggregate<S>, e: E, time: int, reference: string)
      returns (r: ApplyResult)
      requires Faithful(k)
      modifies this, agg
      ensures agg.id == old(agg.id)
      ensures var staging := Stage(k, agg.id, old(agg.state), old(agg.sequence), e, time, reference);
              && (r == Applied <==> staging.Staged?)
              && (r == Applied ==>
                    && agg.state == staging.state && agg.sequence == staging.event.sequence
                    && capturedEvents == old(capturedEvents) + [staging.event]
                    && snapshots == old(snapshots) + staging.snapshots)
      ensures r == EventRefused <==> k.apply(old(agg.state), e, time, reference).None?
      ensures r == EventRefused ==>
                agg.state == old(agg.state) && agg.sequence == old(agg.sequence)
                && capturedEvents == old(capturedEvents) && snapshots == old(snapshots)
      ensures r != EventRefused ==>
                && agg.sequence == old(agg.sequence) + 1
                && k.apply(old(agg.state), e, time, reference) == Some(agg.state)
                && (exists event: SerializedEvent ::
                      && capturedEvents == old(capturedEvents) + [event]
                      && event.aggregateId == agg.id && event.sequence == agg.sequence
                      && event.eventType == k.typeOf(e) && event.state == k.serialize(e)
                      && event.eventTime == time && event.reference == reference
                      && Step(k, old(agg.state), event) == Some(agg.state))
      ensures r == Applied && Due(k, agg.sequence) ==>
                exists encoded :: k.encodeState(agg.state) == Some(encoded) && k.decodeState(encoded) == Some(agg.state)
                                  && snapshots == old(snapshots) + [Snapshot(agg.id, encoded, agg.sequence)]
      ensures !Due(k, agg.sequence) || r != Applied ==> snapshots == old(snapshots)
      ensures r == SnapshotRefused <==>
                k.apply(old(agg.state), e, time, reference).Some? && Due(k, agg.sequence)
                && k.encodeState(agg.state).None?
    {
      var applied := k.apply(agg.state, e, time, reference);
      if applied.None? {
        return EventRefused;
      }
      agg.state := applied.value;
      var newSequence := agg.sequence + 1;
      var event := SerializedEvent(0, agg.id, k.typeOf(e), k.serialize(e), newSequence, reference, time);
      agg.sequence := newSequence;
      Publish(event);
      if k.frequency > 0 && newSequence % k.frequency == 0 {
        var snapshotState := k.encodeState(agg.state);
        if snapshotState.None? {
          return SnapshotRefused;
        }
        SaveSnapshot(Snapshot(agg.id, snapshotState.value, newSequence));
      }
      return Applied;
    }
  }

  /**
   Replays a loaded snapshot and its tail over an aggregate object. Without a snapshot the tail goes over whatever
   state the object holds. An error leaves the id and the sequence alone.
   */
  method ApplyState<S(!new), E(!new)>(k: Kind<S, E>, a: AggregateState, agg: Aggregate<S>) returns (ok: bool)
    modifies agg
    ensures ok <==> Rebuild(k, old(agg.state), a).Some?
    ensures ok ==>
              && Rebuild(k, old(agg.state), a) == Some(agg.state)
              && agg.id == a.aggregateId && agg.sequence == LastSequence(a)
    ensures !ok ==> agg.id == old(agg.id) && agg.sequence == old(agg.sequence)
  {
    var sequence := 0;
    if a.snapshot.Some? {
      var newState := k.decodeState(a.snapshot.value.state);
      if newState.None? {
        return false;
      }
      agg.state := newState.value;
      sequence := a.snapshot.value.sequence;
    }
    ghost var start := agg.state;
    for i := 0 to |a.events|
      invariant Base(k, old(agg.state), a.snapshot) == Some(start) && Replay(k, start, a.events[..i]) == Some(agg.state)
      invariant sequence == LastSequence(a.(events := a.events[..i]))
      invariant agg.id == old(agg.id) && agg.sequence == old(agg.sequence)
    {
      var event := a.events[i];
      assert a.events[..i + 1][..i] == a.events[..i];
      var decoded := k.decode(event.eventType, event.state);
      if decoded.None? {
        ReplayFails(k, start, a.events, i + 1);
        return false;
      }
      var applied := k.apply(agg.state, decoded.value, event.eventTime, event.reference);
      if applied.None? {
        ReplayFails(k, start, a.events, i + 1);
        return false;
      }
      agg.state := applied.value;
      sequence := event.sequence;
    }
    assert a.events[..|a.events|] == a.events;
    agg.id := a.aggregateId;
    agg.sequence := sequence;
    return true;
  }
}
