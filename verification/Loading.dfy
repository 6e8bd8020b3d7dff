/** Loading aggregates out of the event store over the memory engine. */
module Loading {
  import opened Wrappers
  import opened NaturalKeys
  import opened EventStreams
  import opened MemoryEngine
  import opened EventStore
  import opened Aggregates
  import opened Contexts

  /** What a load of the aggregate reads: its last snapshot and the events above that snapshot's sequence, in order. */
  function Loaded(engine: MemoryStorageEngine, id: int): AggregateState
    reads engine`capturedEvents, engine`capturedSnapshots, engine`eventTypesInv
  {
    var snapshot := LastCaptured(engine.capturedSnapshots, id);
    AggregateState(id, snapshot, Above(ReadBack(engine.capturedEvents, engine.eventTypesInv), id, SequenceOf(snapshot)))
  }

  // The object is what replaying the load over `held` gives.
  ghost predicate Rebuilt<S(!new), E(!new)>(k: Kind<S, E>, held: S, a: AggregateState, agg: Aggregate<S>)
    reads agg
  {
    agg.id == a.aggregateId && Rebuild(k, held, a) == Some(agg.state) && agg.sequence == LastSequence(a)
  }

  method LoadState(engine: MemoryStorageEngine, aggregateId: int) returns (a: AggregateState)
    ensures a == Loaded(engine, aggregateId)
  {
    var snapshot := engine.GetSnapshotForAggregate(aggregateId);
    var sequence := 0;
    if snapshot.Some? {
      sequence := snapshot.value.sequence;
    }
    var events := engine.GetEventsForAggregate(aggregateId, sequence);
    return AggregateState(aggregateId, snapshot, events);
  }

  /** Loading by id: it succeeds exactly when the aggregate exists with this type and its load can be replayed. */
  method LoadStateInto<S(!new), E(!new)>(store: EventStore, k: Kind<S, E>, aggregateType: string, agg: Aggregate<S>,
                                         aggregateId: int)
    returns (ok: bool)
    requires store.Coherent()
    modifies store`aggregateTypeLookup, agg
    modifies store.engine`aggregateTypes, store.engine`aggregateTypesInv, store.engine`countAggregateType
    ensures store.Coherent() && aggregateType in store.engine.aggregateTypes
    ensures ok <==>
            && aggregateId in store.engine.aggregateInv
            && TypeOf(store.engine.Keys(), aggregateId) == store.engine.aggregateTypes[aggregateType]
            && Rebuild(k, old(agg.state), Loaded(store.engine, aggregateId)).Some?
    ensures ok ==> Rebuilt(k, old(agg.state), Loaded(store.engine, aggregateId), agg)
  {
    var typeId := store.GetAggregateTypeId(aggregateType);
    var found := store.engine.GetAggregateById(typeId, aggregateId);
    if found.Err? {
      return false;
    }
    var state := LoadState(store.engine, aggregateId);
    ok := ApplyState(k, state, agg);
  }

  /** Loading by key: it reads the aggregate that the key leads to, which must have this type. */
  method LoadStateByKeyInto<S(!new), E(!new)>(store: EventStore, k: Kind<S, E>, aggregateType: string,
                                              agg: Aggregate<S>, naturalKey: string)
    returns (ok: bool)
    requires store.Coherent()
    modifies store`aggregateTypeLookup, agg
    modifies store.engine`aggregateTypes, store.engine`aggregateTypesInv, store.engine`countAggregateType
    ensures store.Coherent() && aggregateType in store.engine.aggregateTypes
    ensures old(aggregateType in store.engine.aggregateTypes) ==>
              store.engine.aggregateTypes[aggregateType] == old(store.engine.aggregateTypes)[aggregateType]
    ensures ok <==>
            && naturalKey in store.engine.aggregates
            && var id := store.engine.aggregates[naturalKey];
            && TypeOf(store.engine.Keys(), id) == store.engine.aggregateTypes[aggregateType]
            && Rebuild(k, old(agg.state), Loaded(store.engine, id)).Some?
    ensures ok ==> Rebuilt(k, old(agg.state), Loaded(store.engine, store.engine.aggregates[naturalKey]), agg)
  {
    var typeId := store.GetAggregateTypeId(aggregateType);
    var found := store.engine.GetAggregateByKey(typeId, naturalKey);
    if found.Err? {
      return false;
    }
    var state := LoadState(store.engine, found.value);
    ok := ApplyState(k, state, agg);
  }

  // The lookup behind LoadOrCreateAggregate: the key index's own get-or-create for the type's id.
  method GetOrCreateAggregateByKey(store: EventStore, aggregateType: string, naturalKey: string)
    returns (answer: KeyResult)
    requires store.Coherent()
    modifies store`aggregateTypeLookup
    modifies store.engine`aggregateTypes, store.engine`aggregateTypesInv, store.engine`countAggregateType
    modifies store.engine`countAggregates, store.engine`aggregates, store.engine`aggregateInv
    modifies store.engine`aggregateToTypeId
    ensures store.Coherent() && aggregateType in store.engine.aggregateTypes
    ensures (store.engine.Keys(), answer)
         == Do(old(store.engine.Keys()), GetOrCreate(store.engine.aggregateTypes[aggregateType], naturalKey))
    ensures answer.Id? ==>
              && naturalKey in store.engine.aggregates && store.engine.aggregates[naturalKey] == answer.id
              && TypeOf(store.engine.Keys(), answer.id) == store.engine.aggregateTypes[aggregateType]
  {
    var typeId := store.GetAggregateTypeId(aggregateType);
    answer := store.engine.GetOrCreateAggregateByKey(typeId, naturalKey);
  }

  // What the answer of the key index means for the object.
  ghost predicate CreatedOrLoaded<S(!new), E(!new)>(engine: MemoryStorageEngine, k: Kind<S, E>, heldState: S,
                                                    heldSequence: int, agg: Aggregate<S>, answer: KeyResult,
                                                    r: Result<bool, KeyResult>)
    reads agg, engine`capturedEvents, engine`capturedSnapshots, engine`eventTypesInv
  {
    if !answer.Id? then r == Err(answer)
    else if answer.created then
      r == Ok(true) && agg.id == answer.id && agg.state == heldState && agg.sequence == heldSequence
    else if Rebuild(k, heldState, Loaded(engine, answer.id)).None? then r == Err(answer)
    else r == Ok(false) && Rebuilt(k, heldState, Loaded(engine, answer.id), agg)
  }

  /**
   Created or loaded, as the key index's get-or-create answers. A created aggregate gets its id and nothing else; on the
   loading path the second lookup by key finds what the first one found.
   */
  method LoadOrCreateAggregate<S(!new), E(!new)>(store: EventStore, k: Kind<S, E>, aggregateType: string,
                                                 agg: Aggregate<S>, naturalKey: string)
    returns (r: Result<bool, KeyResult>)
    requires store.Coherent()
    modifies store`aggregateTypeLookup, agg
    modifies store.engine`aggregateTypes, store.engine`aggregateTypesInv, store.engine`countAggregateType
    modifies store.engine`countAggregates, store.engine`aggregates, store.engine`aggregateInv
    modifies store.engine`aggregateToTypeId
    ensures store.Coherent() && aggregateType in store.engine.aggregateTypes
    ensures var (keys, answer) := Do(old(store.engine.Keys()),
                                     GetOrCreate(store.engine.aggregateTypes[aggregateType], naturalKey));
            && store.engine.Keys() == keys
            && CreatedOrLoaded(store.engine, k, old(agg.state), old(agg.sequence), agg, answer, r)
  {
    var answer := GetOrCreateAggregateByKey(store, aggregateType, naturalKey);
    if !answer.Id? {
      return Err(answer);
    }
    if answer.created {
      agg.id := answer.id;
      return Ok(true);
    }
    var ok := LoadStateByKeyInto(store, k, aggregateType, agg, naturalKey);
    return if ok then Ok(false) else Err(answer);
  }
}
