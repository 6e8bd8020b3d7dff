/** The event store over the memory engine: cached type ids and saving a context. */
module EventStore {
  import opened Wrappers
  import opened Records
  import opened TypeNames
  import opened EventStreams
  import opened Draining
  import opened MemoryEngine
  import opened Publishing

  class EventStore {
    const engine: MemoryStorageEngine
    var eventTypeLookup: map<string, int>
    var aggregateTypeLookup: map<string, int>

    constructor (engine: MemoryStorageEngine)
      ensures this.engine == engine && eventTypeLookup == map[] && aggregateTypeLookup == map[]
    {
      this.engine := engine;
      eventTypeLookup, aggregateTypeLookup := map[], map[];
    }

    // The caches say nothing that the engine's one-to-one tables do not say.
    ghost predicate Coherent()
      reads this, engine`eventTypes, engine`eventTypesInv, engine`countEventTypes
      reads engine`aggregateTypes, engine`aggregateTypesInv, engine`countAggregateType
    {
      && OneToOne(engine.EventTypeTable()) && CacheOf(eventTypeLookup, engine.EventTypeTable())
      && OneToOne(engine.AggregateTypeTable()) && CacheOf(aggregateTypeLookup, engine.AggregateTypeTable())
    }

    // ---------------- Type ids ----------------

    /** With the cache in front, a lookup has exactly the effect and the answer of the engine's own lookup. */
    method GetEventTypeId(name: string) returns (id: int)
      requires Coherent()
      modifies `eventTypeLookup, engine`eventTypes, engine`eventTypesInv, engine`countEventTypes
      ensures Coherent()
      ensures (engine.EventTypeTable(), id) == Resolve(old(engine.EventTypeTable()), name)
      ensures Keeps(old(engine.EventTypeTable()), engine.EventTypeTable())
      ensures name in engine.eventTypes && engine.eventTypes[name] == id
    {
      ResolveKeeps(engine.EventTypeTable(), name);
      if name in eventTypeLookup {
        return eventTypeLookup[name];
      }
      id := engine.GetEventTypeId(name);
      eventTypeLookup := eventTypeLookup[name := id];
    }

    method GetAggregateTypeId(name: string) returns (id: int)
      requires Coherent()
      modifies `aggregateTypeLookup, engine`aggregateTypes, engine`aggregateTypesInv, engine`countAggregateType
      ensures Coherent()
      ensures (engine.AggregateTypeTable(), id) == Resolve(old(engine.AggregateTypeTable()), name)
      ensures name in engine.aggregateTypes && engine.aggregateTypes[name] == id
    {
      ResolveKeeps(engine.AggregateTypeTable(), name);
      if name in aggregateTypeLookup {
        return aggregateTypeLookup[name];
      }
      id := engine.GetAggregateTypeId(name);
      aggregateTypeLookup := aggregateTypeLookup[name := id];
    }

    // ---------------- Saving a context ----------------

    // The loop over the events: their type ids, and a time where there is none.
    method EncodeEvents(events: seq<SerializedEvent>, nows: seq<int>) returns (storageEvents: seq<StorageEvent>)
      requires Coherent() && |nows| == |events|
      modifies `eventTypeLookup, engine`eventTypes, engine`eventTypesInv, engine`countEventTypes
      ensures Coherent()
      ensures (engine.EventTypeTable(), storageEvents) == Encode(old(engine.EventTypeTable()), events, nows)
    {
      storageEvents := [];
      ghost var before := engine.EventTypeTable();
      for i := 0 to |events|
        invariant Coherent()
        invariant (engine.EventTypeTable(), storageEvents) == Encode(before, events[..i], nows[..i])
      {
        var event := events[i];
        var eventTypeId := GetEventTypeId(event.eventType);
        if event.eventTime == ZERO_TIME {
          event := event.(eventTime := nows[i]);
        }
        var storageEvent := StorageEvent(event.aggregateId, event.sequence, eventTypeId, event.state, event.eventTime,
                                         event.reference);
        assert events[..i + 1][..i] == events[..i] && nows[..i + 1][..i] == nows[..i];
        storageEvents := storageEvents + [storageEvent];
      }
      assert events[..|events|] == events && nows[..|events|] == nows;
    }

    /** Saves a context's events and snapshots; what any later load of any aggregate reads grows by exactly these. */
    method SaveState(events: seq<SerializedEvent>, snapshots: seq<Snapshot>, nows: seq<int>)
      requires Coherent() && |nows| == |events|
      modifies `eventTypeLookup, engine`eventTypes, engine`eventTypesInv, engine`countEventTypes
      modifies engine`capturedEvents, engine`capturedSnapshots
      ensures Coherent()
      ensures var (t, stored) := Encode(old(engine.EventTypeTable()), events, nows);
              engine.EventTypeTable() == t && engine.capturedEvents == old(engine.capturedEvents) + stored
      ensures var n := |old(engine.capturedEvents)|;
              && |engine.capturedEvents| == n + |events|
              && forall i :: 0 <= i < |events| ==>
                   StoredAs(engine.capturedEvents[n + i], engine.eventTypesInv, events[i], nows[i])
      ensures engine.capturedSnapshots == old(engine.capturedSnapshots) + snapshots
      ensures Named(old(engine.capturedEvents), old(engine.eventTypesInv)) ==>
                && Named(engine.capturedEvents, engine.eventTypesInv)
                && forall id, after :: Above(ReadBack(engine.capturedEvents, engine.eventTypesInv), id, after)
                     == Above(old(ReadBack(engine.capturedEvents, engine.eventTypesInv)), id, after)
                      + Above(StampAll(events, nows), id, after)
    {
      ghost var before := engine.EventTypeTable();
      var storageEvents := EncodeEvents(events, nows);
      AddsFields(old(engine.capturedEvents), before, events, nows);
      engine.WriteState(storageEvents, snapshots);
      if Named(old(engine.capturedEvents), before.byId) {
        SavedIsRead(old(engine.capturedEvents), before, events, nows);
      }
    }

    // ---------------- The types that a subscription names ----------------

    method ResolveAggregateType(sf: SubscriptionFilter) returns (id: Option<int>)
      requires Coherent()
      modifies `aggregateTypeLookup, engine`aggregateTypes, engine`aggregateTypesInv, engine`countAggregateType
      ensures Coherent()
      ensures sf.aggregateType == "" ==> id == None
      ensures sf.aggregateType != "" ==>
                sf.aggregateType in engine.aggregateTypes && id == Some(engine.aggregateTypes[sf.aggregateType])
    {
      if sf.aggregateType == "" {
        return None;
      }
      var typeId := GetAggregateTypeId(sf.aggregateType);
      return Some(typeId);
    }

    method ResolveEventTypes(sf: SubscriptionFilter) returns (single: Option<int>, several: seq<int>)
      requires Coherent()
      modifies `eventTypeLookup, engine`eventTypes, engine`eventTypesInv, engine`countEventTypes
      ensures Coherent() && Keeps(old(engine.EventTypeTable()), engine.EventTypeTable())
      ensures forall t :: t in sf.eventTypes ==> t in engine.eventTypes
      ensures |sf.eventTypes| == 1 ==> single == Some(engine.eventTypes[sf.eventTypes[0]]) && several == []
      ensures |sf.eventTypes| != 1 ==>
                && single == None && |several| == |sf.eventTypes|
                && forall i :: 0 <= i < |several| ==> several[i] == engine.eventTypes[sf.eventTypes[i]]
    {
      single, several := None, [];
      if |sf.eventTypes| == 1 {
        var id := GetEventTypeId(sf.eventTypes[0]);
        single := Some(id);
      } else {
        for i := 0 to |sf.eventTypes|
          invariant Coherent() && Keeps(old(engine.EventTypeTable()), engine.EventTypeTable())
          invariant |several| == i
          invariant forall j :: 0 <= j < i ==> sf.eventTypes[j] in engine.eventTypes
          invariant forall j :: 0 <= j < i ==> several[j] == engine.eventTypes[sf.eventTypes[j]]
        {
          var id := GetEventTypeId(sf.eventTypes[i]);
          several := several + [id];
        }
      }
    }
  }

  lemma AddsFields(log: seq<StorageEvent>, t: NameTable, events: seq<SerializedEvent>, nows: seq<int>)
    requires OneToOne(t) && |nows| == |events|
    ensures var (t', stored) := Encode(t, events, nows);
            && |log + stored| == |log| + |events|
            && forall i :: 0 <= i < |events| ==> StoredAs((log + stored)[|log| + i], t'.byId, events[i], nows[i])
  {
    EncodesFields(t, events, nows);
  }

  lemma SavedIsRead(log: seq<StorageEvent>, t: NameTable, events: seq<SerializedEvent>, nows: seq<int>)
    requires OneToOne(t) && Named(log, t.byId) && |nows| == |events|
    ensures var (t', stored) := Encode(t, events, nows);
            && Named(log + stored, t'.byId)
            && forall id, after :: Above(ReadBack(log + stored, t'.byId), id, after)
                 == Above(ReadBack(log, t.byId), id, after) + Above(StampAll(events, nows), id, after)
  {
    var (t', stored) := Encode(t, events, nows);
    EncodeReadsBack(t, events, nows);
    ReadBackStays(log, t, t');
    ReadBackConcat(log, stored, t');
    forall id, after
      ensures Above(ReadBack(log + stored, t'.byId), id, after)
           == Above(ReadBack(log, t.byId), id, after) + Above(StampAll(events, nows), id, after)
    {
      AboveConcat(ReadBack(log, t.byId), StampAll(events, nows), id, after);
    }
  }
}
