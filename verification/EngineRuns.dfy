/** Runs of an engine from its first use: its tables stay sound, so what holds of sound tables holds of every run. */
module EngineRuns {
  import opened Records
  import opened EventLog
  import opened TypeNames
  import opened NaturalKeys
  import opened EngineTables
  import opened Leases
  import opened Draining
  import opened MemoryEngine
  import opened Publishing
  import opened EventStore
  import opened SubscriptionRuns
  import opened Subscriptions
  import opened SubscriptionTheorems
  import opened StoredSubscriptions

  /** What the engine's tables hold: events, aggregates, and the type names both ways. */
  datatype EngineState = EngineState(events: seq<StorageEvent>, keys: KeyIndex, aggregateTypes: NameTable,
                                     eventTypes: NameTable)

  const NEW_ENGINE := EngineState([], EMPTY_INDEX, EMPTY_TABLE, EMPTY_TABLE)

  datatype EngineOp =
    | NameAggregateType(name: string)
    | NameEventType(name: string)
    | ChangeKeys(op: KeyOp)
    | Save(batch: Batch)

  function TablesOf(e: EngineState): LogTables {
    LogTables(e.events, e.keys, e.aggregateTypes.byId, e.eventTypes.byId)
  }

  predicate OpClocked(op: EngineOp) {
    op.Save? ==> |op.batch.nows| == |op.batch.events|
  }

  function AfterOp(e: EngineState, op: EngineOp): EngineState
    requires OpClocked(op)
  {
    match op
    case NameAggregateType(name) => e.(aggregateTypes := Resolve(e.aggregateTypes, name).0)
    case NameEventType(name) => e.(eventTypes := Resolve(e.eventTypes, name).0)
    case ChangeKeys(keyOp) => e.(keys := Do(e.keys, keyOp).0)
    case Save(batch) =>
      var (types, stored) := Encode(e.eventTypes, batch.events, batch.nows);
      e.(eventTypes := types, events := e.events + stored)
  }

  predicate AllClocked(ops: seq<EngineOp>) {
    forall i :: 0 <= i < |ops| ==> OpClocked(ops[i])
  }

  function AfterOps(e: EngineState, ops: seq<EngineOp>): EngineState
    requires AllClocked(ops)
  {
    if ops == [] then e else AfterOp(AfterOps(e, ops[..|ops| - 1]), ops[|ops| - 1])
  }

  // ---------------- The engine and its store do just this ----------------

  function StateOf(engine: MemoryStorageEngine): EngineState
    reads engine`capturedEvents, engine`eventTypes, engine`eventTypesInv, engine`countEventTypes
    reads engine`aggregateTypes, engine`aggregateTypesInv, engine`countAggregateType
    reads engine`countAggregates, engine`aggregates, engine`aggregateInv, engine`aggregateToTypeId
  {
    EngineState(engine.capturedEvents, engine.Keys(), engine.AggregateTypeTable(), engine.EventTypeTable())
  }

  /** Each operation has its effect on the tables through the store's cached lookups too. */
  method Apply(store: EventStore, op: EngineOp)
    requires store.Coherent() && OpClocked(op)
    modifies store`eventTypeLookup, store`aggregateTypeLookup
    modifies store.engine`eventTypes, store.engine`eventTypesInv, store.engine`countEventTypes
    modifies store.engine`aggregateTypes, store.engine`aggregateTypesInv, store.engine`countAggregateType
    modifies store.engine`countAggregates, store.engine`aggregates, store.engine`aggregateInv
    modifies store.engine`aggregateToTypeId, store.engine`capturedEvents, store.engine`capturedSnapshots
    ensures store.Coherent() && StateOf(store.engine) == AfterOp(old(StateOf(store.engine)), op)
  {
    match op
    case NameAggregateType(name) => var _ := store.GetAggregateTypeId(name);
    case NameEventType(name) => var _ := store.GetEventTypeId(name);
    case ChangeKeys(keyOp) => ApplyKeyOp(store.engine, keyOp);
    case Save(batch) => store.SaveState(batch.events, [], batch.nows);
  }

  /** A new engine, driven through any operations, holds what the operations leave. */
  method Drive(ops: seq<EngineOp>) returns (store: EventStore)
    requires AllClocked(ops)
    ensures fresh(store) && fresh(store.engine)
    ensures store.Coherent() && StateOf(store.engine) == AfterOps(NEW_ENGINE, ops)
  {
    var engine := new MemoryStorageEngine();
    store := new EventStore(engine);
    for i := 0 to |ops|
      invariant store.Coherent() && fresh(store) && fresh(store.engine)
      invariant StateOf(store.engine) == AfterOps(NEW_ENGINE, ops[..i])
    {
      assert ops[..i + 1][..i] == ops[..i];
      Apply(store, ops[i]);
    }
    assert ops[..|ops|] == ops;
  }

  // ---------------- Soundness ----------------

  // What an aggregate is created as, if the operation creates one.
  predicate TypeKnown(e: EngineState, op: KeyOp) {
    op.ChangeKey? || op.typeId in e.aggregateTypes.byId
  }

  predicate AggregatesKnown(events: seq<SerializedEvent>, keys: KeyIndex) {
    forall i :: 0 <= i < |events| ==> events[i].aggregateId in keys.typeOf
  }

  /**
   What the callers see to: type ids come from the name tables, the events of a context are those of aggregates that it
   created or loaded, and no key is given to a second aggregate.
   */
  predicate Fits(e: EngineState, op: EngineOp) {
    match op
    case ChangeKeys(keyOp) => KeyFree(e.keys, keyOp) && TypeKnown(e, keyOp)
    case Save(batch) => AggregatesKnown(batch.events, e.keys)
    case _ => true
  }

  predicate AllFit(ops: seq<EngineOp>)
    requires AllClocked(ops)
  {
    ops == [] || (var init := ops[..|ops| - 1]; AllFit(init) && Fits(AfterOps(NEW_ENGINE, init), ops[|ops| - 1]))
  }

  // Every aggregate's type has a name.
  predicate TypesNamed(keys: KeyIndex, names: map<int, string>) {
    forall id :: id in keys.typeOf ==> keys.typeOf[id] in names
  }

  ghost predicate SoundState(e: EngineState) {
    && Sound(TablesOf(e)) && OneToOne(e.aggregateTypes) && OneToOne(e.eventTypes)
    && TypesNamed(e.keys, e.aggregateTypes.byId)
  }

  lemma KeyOpKeepsTypes(k: KeyIndex, op: KeyOp, names: map<int, string>)
    requires Consistent(k) && TypesNamed(k, names) && (op.ChangeKey? || op.typeId in names)
    ensures TypesNamed(Do(k, op).0, names)
    ensures forall id :: id in k.typeOf ==> id in Do(k, op).0.typeOf
  {
  }

  lemma KeyOpKeepsReferences(events: seq<StorageEvent>, k: KeyIndex, op: KeyOp, names: map<int, string>)
    requires Consistent(k) && Consistent(Do(k, op).0) && References(events, k, names)
    requires forall id :: id in k.typeOf ==> id in Do(k, op).0.typeOf
    ensures References(events, Do(k, op).0, names)
  {
  }

  lemma SaveKeepsReferences(e: EngineState, batch: Batch)
    requires SoundState(e) && |batch.nows| == |batch.events| && AggregatesKnown(batch.events, e.keys)
    ensures SoundState(AfterOp(e, Save(batch)))
  {
    EncodeReadsBack(e.eventTypes, batch.events, batch.nows);
    EncodesFields(e.eventTypes, batch.events, batch.nows);
    var (types, stored) := Encode(e.eventTypes, batch.events, batch.nows);
    assert References(e.events, e.keys, types.byId);
    assert References(stored, e.keys, types.byId);
  }

  lemma OpKeepsSound(e: EngineState, op: EngineOp)
    requires SoundState(e) && OpClocked(op) && Fits(e, op)
    ensures SoundState(AfterOp(e, op))
  {
    match op
    case NameAggregateType(name) => ResolveKeeps(e.aggregateTypes, name);
    case NameEventType(name) => ResolveKeeps(e.eventTypes, name);
    case ChangeKeys(keyOp) =>
      DoKeepsConsistent(e.keys, keyOp);
      KeyOpKeepsTypes(e.keys, keyOp, e.aggregateTypes.byId);
      KeyOpKeepsReferences(e.events, e.keys, keyOp, e.eventTypes.byId);
    case Save(batch) => SaveKeepsReferences(e, batch);
  }

  /** From a new engine on, the foreign keys hold, keys are unique, and names and ids correspond. */
  lemma {:induction false} RunsStaySound(ops: seq<EngineOp>)
    requires AllClocked(ops) && AllFit(ops)
    ensures SoundState(AfterOps(NEW_ENGINE, ops)) && Complete(TablesOf(AfterOps(NEW_ENGINE, ops)))
  {
    if ops != [] {
      var init := ops[..|ops| - 1];
      RunsStaySound(init);
      OpKeepsSound(AfterOps(NEW_ENGINE, init), ops[|ops| - 1]);
    }
    SoundIsComplete(AfterOps(NEW_ENGINE, ops));
  }

  lemma SoundIsComplete(e: EngineState)
    requires SoundState(e)
    ensures Complete(TablesOf(e))
  {
    var t := TablesOf(e);
    forall id | 1 <= id <= |t.events|
      ensures InView(t, id)
    {
      assert t.events[id - 1].aggregateId in t.keys.typeOf;
    }
  }

  /** So after every such run the SQL query returns what the memory engine's scan returns, but for the reference. */
  lemma EnginesReadAlike(ops: seq<EngineOp>, f: Filter, cursor: int, limit: int, results: seq<SerializedEvent>)
    requires AllClocked(ops) && AllFit(ops) && 0 < limit
    ensures var t := TablesOf(AfterOps(NEW_ENGINE, ops));
            IsResult(t, f, cursor, limit, results)
            <==> results == WithoutReferences(Render(LogOf(t), Fetch(LogOf(t), f, cursor, limit)))
  {
    RunsStaySound(ops);
    QueryReturnsTheScan(TablesOf(AfterOps(NEW_ENGINE, ops)), f, cursor, limit, results);
  }

  // Rounds in which others do nothing, and the handler answers without an error.
  predicate AllQuiet(rounds: seq<Round>) {
    forall i :: 0 <= i < |rounds| ==> Quiet(rounds[i]) && !rounds[i].deactivate
  }

  lemma {:induction false} QuietRounds(t: LogTables, rounds: seq<Round>)
    requires Sound(t) && AllQuiet(rounds)
    ensures var seen := SeenOf(t, rounds);
            LogGrows(LogOf(t), seen) && QuietFrom(seen, 0) && StaysActiveFrom(seen, 0)
  {
    SeenLogsGrow(t, rounds);
    SeenRounds(t, rounds);
  }

  lemma {:induction false} SeenRounds(t: LogTables, rounds: seq<Round>)
    ensures forall i :: 0 <= i < |rounds| ==> SeenOf(t, rounds)[i].round == rounds[i]
  {
    if rounds != [] {
      SeenRounds(t, rounds[..|rounds| - 1]);
    }
  }

  /**
   Both runners on the engine after any such run: with one filter of type names, one start and any two batch sizes,
   while others do nothing, they hand over the same events in the same order.
   */
  lemma RunnersAgreeOnEngine(ops: seq<EngineOp>, sf: SubscriptionFilter, defined: SubscriptionRow, start: Start,
                             opts: Options, now: int, rounds: seq<Round>, localOpts: Options, localRounds: seq<Round>)
    requires AllClocked(ops) && AllFit(ops)
    requires var e := AfterOps(NEW_ENGINE, ops); Resolves(sf, e.aggregateTypes.byName, e.eventTypes.byName)
    requires defined.lastEventId == 0 && defined.start == start && MayClaim(defined.lease, now)
    requires AllQuiet(rounds) && AllQuiet(localRounds)
    requires var e := AfterOps(NEW_ENGINE, ops);
             var log, cursor := LogOf(TablesOf(e)), DurableCursor(start, LogOf(TablesOf(e)));
             var f := DurableFilter(sf, e.aggregateTypes.byName, e.eventTypes.byName);
             var g := EphemeralFilter(sf, e.aggregateTypes.byName, e.eventTypes.byName);
             && cursor.Some?
             && |Drain(log, f, cursor.value, BatchSize(opts))| <= |rounds|
             && |Drain(log, g, cursor.value, BatchSize(localOpts))| <= |localRounds|
    ensures var e := AfterOps(NEW_ENGINE, ops);
            var t, log := TablesOf(e), LogOf(TablesOf(e));
            var f := DurableFilter(sf, e.aggregateTypes.byName, e.eventTypes.byName);
            var g := EphemeralFilter(sf, e.aggregateTypes.byName, e.eventTypes.byName);
            Concat(Answer(log, SeenOf(t, rounds), defined, f, opts, now).delivered)
            == Concat(LocalAnswer(log, SeenOf(t, localRounds), g, NamesToKeep(sf), start, localOpts).delivered)
  {
    var e := AfterOps(NEW_ENGINE, ops);
    var t := TablesOf(e);
    RunsStaySound(ops);
    QuietRounds(t, rounds);
    QuietRounds(t, localRounds);
    ViewIsCoherent(t.events, t.keys, e.eventTypes);
    RunnersAgree(sf, e.aggregateTypes.byName, e.eventTypes.byName, LogOf(t), defined, start, opts, now,
                 SeenOf(t, rounds), localOpts, SeenOf(t, localRounds));
  }

  // ---------------- From publishing to the handler ----------------

  lemma SavedIsStored(e: EngineState, batch: Batch, i: nat)
    requires OneToOne(e.eventTypes) && OpClocked(Save(batch)) && i < |batch.events|
    ensures var t, n := TablesOf(AfterOp(e, Save(batch))), |e.events|;
            n + i < |t.events| && StoredAs(t.events[n + i], t.eventTypes, batch.events[i], batch.nows[i])
  {
    EncodesFields(e.eventTypes, batch.events, batch.nows);
  }

  /** An event that a context saved reaches a subscription's handler with every field as it was published. */
  lemma SavedIsHandedOver(e: EngineState, batch: Batch, c: Call, r: SerializedEvent, i: nat)
    requires SoundState(e) && OpClocked(Save(batch)) && Fits(e, Save(batch))
    requires Gave(c) && CreatesOnly(c.rounds) && c.t0 == TablesOf(AfterOp(e, Save(batch)))
    requires r in Concat(c.delivered) && i < |batch.events| && r.eventId == |e.events| + i + 1
    ensures ReadsAs(r, Publication(batch.events[i], batch.nows[i]))
  {
    OpKeepsSound(e, Save(batch));
    SavedIsStored(e, batch, i);
    CarriesFirst(c, r);
  }

  // An event that was there before the call is handed over as it was stored.
  lemma CarriesFirst(c: Call, r: SerializedEvent)
    requires Gave(c) && Sound(c.t0) && CreatesOnly(c.rounds)
    requires r in Concat(c.delivered) && r.eventId <= |c.t0.events|
    ensures CarriesStored(c.t0.events, c.t0.eventTypes, r)
  {
    HandsOverFields(c);
    RoundsExtend(c.t0, c.rounds[..|c.seen|]);
    assert c.t.events[r.eventId - 1] == c.t0.events[r.eventId - 1];
  }
}
