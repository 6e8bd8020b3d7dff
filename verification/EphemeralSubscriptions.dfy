/** The ephemeral subscription runner over the memory engine: a local cursor, and no stored row. */
module EphemeralSubscriptions {
  import opened Wrappers
  import opened Records
  import opened TypeNames
  import opened EngineTables
  import opened Draining
  import opened MemoryEngine
  import opened EventStore
  import opened SubscriptionRuns
  import opened Subscriptions

  /** The filter in memory, on the rendered events: it keeps what the filter on the log keeps. */
  method KeepByName(events: seq<SerializedEvent>, names: Option<set<string>>, ghost log: seq<LogRow>,
                    ghost ids: seq<int>)
    returns (deliver: seq<SerializedEvent>)
    requires InLog(log, ids) && events == Render(log, ids)
    ensures deliver == Render(log, KeepNames(log, names, ids))
  {
    if names.None? {
      KeepAll(log, ids);
      return events;
    }
    deliver := [];
    for i := 0 to |events|
      invariant KeptTo(log, names, ids, i, deliver)
    {
      KeepStep(log, names, ids, i, deliver);
      if events[i].eventType in names.value {
        deliver := deliver + [events[i]];
      }
    }
    assert ids[..|events|] == ids;
  }

  // The first n rendered events have been filtered.
  ghost predicate KeptTo(log: seq<LogRow>, names: Option<set<string>>, ids: seq<int>, n: nat,
                         deliver: seq<SerializedEvent>) {
    n <= |ids| && InLog(log, ids[..n]) && deliver == Render(log, KeepNames(log, names, ids[..n]))
  }

  lemma TakeOneMore<T>(s: seq<T>, i: nat)
    requires i < |s|
    ensures s[..i + 1] == s[..i] + [s[i]]
  {
  }

  lemma KeepStep(log: seq<LogRow>, names: Option<set<string>>, ids: seq<int>, i: nat, deliver: seq<SerializedEvent>)
    requires InLog(log, ids) && i < |ids| && names.Some? && KeptTo(log, names, ids, i, deliver)
    ensures var event := Render(log, ids)[i];
            KeptTo(log, names, ids, i + 1, if event.eventType in names.value then deliver + [event] else deliver)
  {
    RenderAt(log, ids, i);
    TakeOneMore(ids, i);
    KeepAppended(log, names, ids[..i], ids[i], deliver);
  }

  lemma KeepAppended(log: seq<LogRow>, names: Option<set<string>>, ids: seq<int>, id: int,
                     deliver: seq<SerializedEvent>)
    requires InLog(log, ids) && 1 <= id <= |log| && deliver == Render(log, KeepNames(log, names, ids))
    ensures InLog(log, ids + [id])
    ensures Render(log, KeepNames(log, names, ids + [id]))
         == if IsKept(names, log[id - 1]) then deliver + [Rendered(log[id - 1], id)] else deliver
  {
    KeepOneMore(log, names, ids, id);
    RenderOneMore(log, KeepNames(log, names, ids), id);
  }

  lemma KeepOneMore(log: seq<LogRow>, names: Option<set<string>>, ids: seq<int>, id: int)
    requires InLog(log, ids) && 1 <= id <= |log|
    ensures InLog(log, ids + [id])
    ensures var kept := KeepNames(log, names, ids);
            KeepNames(log, names, ids + [id]) == if IsKept(names, log[id - 1]) then kept + [id] else kept
  {
    assert (ids + [id])[..|ids|] == ids;
  }

  lemma {:induction false} KeepAll(log: seq<LogRow>, ids: seq<int>)
    requires InLog(log, ids)
    ensures KeepNames(log, None, ids) == ids
  {
    if ids != [] {
      KeepAll(log, ids[..|ids| - 1]);
    }
  }

  lemma RenderAt(log: seq<LogRow>, ids: seq<int>, i: nat)
    requires InLog(log, ids) && i < |ids|
    ensures Render(log, ids)[i] == Rendered(log[ids[i] - 1], ids[i])
  {
  }

  // ---------------- The loop ----------------

  method FetchAndKeep(engine: MemoryStorageEngine, ep: SubscriptionRow, names: Option<set<string>>, lastId: int,
                      limit: int)
    returns (next: int, deliver: seq<SerializedEvent>)
    requires 0 < limit
    ensures (next, deliver) == LocalTurn(engine.Log(), engine.FilterOf(ep), names, lastId, limit)
  {
    var events := engine.GetEventsForSubscription(ep.(lastEventId := lastId), limit);
    ghost var batch := FetchInLog(engine.Log(), engine.FilterOf(ep), lastId, limit);
    if |events| == 0 {
      return lastId, [];
    }
    RenderAt(engine.Log(), batch, |batch| - 1);
    next := events[|events| - 1].eventId;
    deliver := KeepByName(events, names, engine.Log(), batch);
  }

  /** One round of the local loop: others first, then a turn. */
  method PlayLocalRound(engine: MemoryStorageEngine, ep: SubscriptionRow, names: Option<set<string>>, lastId: int,
                        opts: Options, round: Round)
    returns (next: int, deliver: seq<SerializedEvent>)
    modifies engine`countAggregates, engine`aggregates, engine`aggregateInv, engine`aggregateToTypeId
    modifies engine`capturedEvents, engine`capturedSnapshots
    ensures engine.Tables() == AfterRound(old(engine.Tables()), round)
    ensures (next, deliver) == LocalTurn(engine.Log(), engine.FilterOf(ep), names, lastId, BatchSize(opts))
  {
    OtherContexts(engine, round);
    next, deliver := FetchAndKeep(engine, ep, names, lastId, BatchSize(opts));
  }

  /** What a local run did to the tables, and that its outcome and its batches are those of the given progress. */
  ghost predicate GivesLocally(a: LocalProgress, rounds: seq<Round>, t0: LogTables, seen: seq<Seen>,
                               t: LogTables, outcome: Outcome, delivered: seq<seq<SerializedEvent>>) {
    && GoesThrough(rounds, t0, t, seen)
    && (outcome == Cancelled ==> |seen| == |rounds|)
    && outcome == OutcomeOf(a.stop) && delivered == a.delivered
  }

  // Where the loop stands, after the rounds seen.
  ghost predicate StandsLocally(rounds: seq<Round>, t0: LogTables, from: int, g: Filter, names: Option<set<string>>,
                                limit: int, seen: seq<Seen>, t: LogTables, p: LocalProgress)
    requires 0 < limit
  {
    GoesThrough(rounds, t0, t, seen) && p == PlayLocally(LocalProgress(from, [], None), seen, g, names, limit)
  }

  lemma StandsLocallyOneMore(rounds: seq<Round>, t0: LogTables, from: int, g: Filter, names: Option<set<string>>,
                             limit: int, seen: seq<Seen>, t: LogTables, p: LocalProgress, s: Seen, next: int,
                             deliver: seq<SerializedEvent>)
    returns (q: LocalProgress)
    requires 0 < limit && StandsLocally(rounds, t0, from, g, names, limit, seen, t, p) && p.stop.None?
    requires |seen| < |rounds| && s.round == rounds[|seen|] && s.log == LogOf(AfterRound(t, s.round))
    requires (next, deliver) == LocalTurn(s.log, g, names, p.cursor, limit)
    ensures StandsLocally(rounds, t0, from, g, names, limit, seen + [s], AfterRound(t, s.round), q)
    ensures q == if deliver == [] then p.(cursor := next)
                 else if !s.round.handlerOk then p.(stop := Some(HandlerFailed))
                 else LocalProgress(next, p.delivered + [deliver], None)
  {
    OneMoreSeen(rounds, t0, t, seen, s.round);
    assert (seen + [s])[..|seen|] == seen;
    q := MovedLocally(p, s, g, names, limit);
  }

  /** The local loop: it plays its rounds until its handler fails, or else until it is cancelled after the last. */
  method RunLocalLoop(engine: MemoryStorageEngine, ep: SubscriptionRow, names: Option<set<string>>, from: int,
                      opts: Options, rounds: seq<Round>)
    returns (outcome: Outcome, delivered: seq<seq<SerializedEvent>>, ghost seen: seq<Seen>)
    modifies engine`countAggregates, engine`aggregates, engine`aggregateInv, engine`aggregateToTypeId
    modifies engine`capturedEvents, engine`capturedSnapshots
    ensures GivesLocally(PlayLocally(LocalProgress(from, [], None), seen, engine.FilterOf(ep), names, BatchSize(opts)),
                         rounds, old(engine.Tables()), seen, engine.Tables(), outcome, delivered)
  {
    delivered, seen := [], [];
    var lastId := from;
    ghost var t0, g := engine.Tables(), engine.FilterOf(ep);
    ghost var t, p := t0, LocalProgress(from, [], None);
    for i := 0 to |rounds|
      invariant engine.Tables() == t && |seen| == i
      invariant StandsLocally(rounds, t0, from, g, names, BatchSize(opts), seen, t, p)
      invariant p == LocalProgress(lastId, delivered, None)
    {
      var deliver;
      lastId, deliver := PlayLocalRound(engine, ep, names, lastId, opts, rounds[i]);
      ghost var s := Seen(rounds[i], engine.Log());
      p := StandsLocallyOneMore(rounds, t0, from, g, names, BatchSize(opts), seen, t, p, s, lastId, deliver);
      seen, t := seen + [s], engine.Tables();
      if |deliver| == 0 {
        continue;
      }
      if !rounds[i].handlerOk {
        return HandlerFailed, delivered, seen;
      }
      delivered := delivered + [deliver];
    }
    return Cancelled, delivered, seen;
  }

  // ---------------- RunEphemeralSubscription ----------------

  method ChooseLocalCursor(engine: MemoryStorageEngine, start: Start) returns (lastId: Option<int>)
    ensures lastId == EphemeralCursor(start, engine.Log())
  {
    if start.kind == Unset {
      return Some(0);
    }
    var p := ChooseCursor(engine, start);
    match p
    case MoveTo(cursor) => return Some(cursor);
    case Stay => return Some(0);
    case Reject => return None;
  }

  // From the resolved filter on.
  method RunLocal(engine: MemoryStorageEngine, ep: SubscriptionRow, names: Option<set<string>>, start: Start,
                  opts: Options, rounds: seq<Round>)
    returns (outcome: Outcome, delivered: seq<seq<SerializedEvent>>, ghost seen: seq<Seen>)
    modifies engine`countAggregates, engine`aggregates, engine`aggregateInv, engine`aggregateToTypeId
    modifies engine`capturedEvents, engine`capturedSnapshots
    ensures GivesLocally(LocalAnswer(old(engine.Log()), seen, engine.FilterOf(ep), names, start, opts), rounds,
                         old(engine.Tables()), seen, engine.Tables(), outcome, delivered)
  {
    var lastId := ChooseLocalCursor(engine, start);
    if lastId.None? {
      return UnknownStart, [], [];
    }
    outcome, delivered, seen := RunLocalLoop(engine, ep, names, lastId.value, opts, rounds);
  }

  // The same beside a store, whose caches stay coherent.
  method RunLocalBeside(store: EventStore, ep: SubscriptionRow, names: Option<set<string>>, start: Start, opts: Options,
                        rounds: seq<Round>)
    returns (outcome: Outcome, delivered: seq<seq<SerializedEvent>>, ghost seen: seq<Seen>)
    requires store.Coherent()
    modifies store.engine`countAggregates, store.engine`aggregates, store.engine`aggregateInv
    modifies store.engine`aggregateToTypeId
    modifies store.engine`capturedEvents, store.engine`capturedSnapshots
    ensures store.Coherent()
    ensures GivesLocally(LocalAnswer(old(store.engine.Log()), seen, store.engine.FilterOf(ep), names, start, opts),
                         rounds, old(store.engine.Tables()), seen, store.engine.Tables(), outcome, delivered)
  {
    ghost var eventTypes, aggregateTypes := store.engine.EventTypeTable(), store.engine.AggregateTypeTable();
    outcome, delivered, seen := RunLocal(store.engine, ep, names, start, opts, rounds);
    assert store.engine.EventTypeTable() == eventTypes && store.engine.AggregateTypeTable() == aggregateTypes;
  }

  // The unstored row that carries the filter of an ephemeral run.
  method ResolveLocally(store: EventStore, sf: SubscriptionFilter, start: Start) returns (ep: SubscriptionRow)
    requires store.Coherent()
    modifies store`eventTypeLookup, store`aggregateTypeLookup
    modifies store.engine`aggregateTypes, store.engine`aggregateTypesInv, store.engine`countAggregateType
    modifies store.engine`eventTypes, store.engine`eventTypesInv, store.engine`countEventTypes
    ensures store.Coherent() && Keeps(old(store.engine.EventTypeTable()), store.engine.EventTypeTable())
    ensures store.engine.Tables() == WithNames(old(store.engine.Tables()), store.engine)
    ensures Resolves(ByIds(sf), store.engine.aggregateTypes, store.engine.eventTypes)
    ensures var query := EphemeralFilter(sf, store.engine.aggregateTypes, store.engine.eventTypes);
            store.engine.FilterOf(ep) == WithJoined(query, store.engine.subscriptionEventTypes, 0)
  {
    var aggregateTypeId, single, _ := ResolveInEngine(store, ByIds(sf));
    ep := NewRow(0, "", aggregateTypeId, single, sf.aggregateKey, start);
  }

  /**
   RunEphemeralSubscription while others commit: no row is stored, and what it hands over and how it ends are those of
   the local run as defined, over the logs that the rounds leave to its turns.
   */
  method RunEphemeralSubscription(store: EventStore, sf: SubscriptionFilter, start: Start, opts: Options,
                                  rounds: seq<Round>)
    returns (outcome: Outcome, delivered: seq<seq<SerializedEvent>>, ghost seen: seq<Seen>)
    requires store.Coherent()
    modifies store`eventTypeLookup, store`aggregateTypeLookup
    modifies store.engine`aggregateTypes, store.engine`aggregateTypesInv, store.engine`countAggregateType
    modifies store.engine`eventTypes, store.engine`eventTypesInv, store.engine`countEventTypes
    modifies store.engine`countAggregates, store.engine`aggregates, store.engine`aggregateInv
    modifies store.engine`aggregateToTypeId
    modifies store.engine`capturedEvents, store.engine`capturedSnapshots
    ensures store.Coherent()
    ensures Keeps(old(store.engine.EventTypeTable()), store.engine.EventTypeTable())
    ensures Resolves(ByIds(sf), store.engine.aggregateTypes, store.engine.eventTypes)
    ensures var query := EphemeralFilter(sf, store.engine.aggregateTypes, store.engine.eventTypes);
            var g := WithJoined(query, store.engine.subscriptionEventTypes, 0);
            var t0 := WithNames(old(store.engine.Tables()), store.engine);
            GivesLocally(LocalAnswer(LogOf(t0), seen, g, NamesToKeep(sf), start, opts), rounds, t0, seen,
                         store.engine.Tables(), outcome, delivered)
  {
    var ep := ResolveLocally(store, sf, start);
    outcome, delivered, seen := RunLocalBeside(store, ep, NamesToKeep(sf), start, opts, rounds);
  }
}
