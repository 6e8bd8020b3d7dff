/** The durable subscription runner over the memory engine, one uninterrupted runner at a time. */
module Subscriptions {
  import opened Wrappers
  import opened Records
  import opened EventLog
  import opened TypeNames
  import opened NaturalKeys
  import opened EngineTables
  import opened Leases
  import opened Draining
  import opened MemoryEngine
  import opened EventStore
  import opened SubscriptionRuns

  // ---------------- What other contexts do between two turns ----------------

  method ApplyKeyOp(engine: MemoryStorageEngine, op: KeyOp)
    modifies engine`countAggregates, engine`aggregates, engine`aggregateInv, engine`aggregateToTypeId
    ensures engine.Keys() == Do(old(engine.Keys()), op).0
  {
    match op
    case Create(typeId) => var _ := engine.NewAggregate(typeId);
    case CreateWithKey(typeId, key) => var _ := engine.NewAggregateWithKey(typeId, key);
    case ChangeKey(id, key) => var _ := engine.ChangeAggregateNaturalKey(id, key);
    case GetOrCreate(typeId, key) => var _ := engine.GetOrCreateAggregateByKey(typeId, key);
  }

  method ChangeAggregates(engine: MemoryStorageEngine, ops: seq<KeyOp>)
    modifies engine`countAggregates, engine`aggregates, engine`aggregateInv, engine`aggregateToTypeId
    ensures engine.Keys() == DoAll(old(engine.Keys()), ops)
  {
    for i := 0 to |ops|
      invariant engine.Keys() == DoAll(old(engine.Keys()), ops[..i])
    {
      assert ops[..i + 1][..i] == ops[..i];
      ApplyKeyOp(engine, ops[i]);
    }
    assert ops[..|ops|] == ops;
  }

  /** What others do to the engine in one round. */
  method OtherContexts(engine: MemoryStorageEngine, round: Round)
    modifies engine`countAggregates, engine`aggregates, engine`aggregateInv, engine`aggregateToTypeId
    modifies engine`capturedEvents, engine`capturedSnapshots
    ensures engine.Tables() == AfterRound(old(engine.Tables()), round)
  {
    ChangeAggregates(engine, round.keyOps);
    if References(round.events, engine.Keys(), engine.eventTypesInv) {
      engine.WriteState(round.events, []);
    }
  }

  // The others' part of a round, with the switch that stops a runner.
  method OthersTurn(engine: MemoryStorageEngine, name: string, round: Round)
    requires engine.Linked() && name in engine.subscriptions
    modifies engine`countAggregates, engine`aggregates, engine`aggregateInv, engine`aggregateToTypeId
    modifies engine`capturedEvents, engine`capturedSnapshots, engine.subscriptions.Values
    ensures engine.Tables() == AfterRound(old(engine.Tables()), round)
    ensures engine.Rows() == old(engine.Rows())[name := Touched(old(engine.Rows()[name]), round)]
  {
    OtherContexts(engine, round);
    SameEntry(engine.Rows(), name);
    if round.deactivate {
      var _ := engine.SetSubscriptionActive(engine.subscriptions[name].id, false);
    }
  }

  // ---------------- A turn ----------------

  lemma SameEntry<K, V>(m: map<K, V>, k: K)
    requires k in m
    ensures m[k := m[k]] == m
  {
  }

  // After the handler: the cursor and then the lease.
  method PersistTurn(engine: MemoryStorageEngine, name: string, sub: SubscriptionRow, lastId: int, owner: string,
                     lease: int, now: int)
    requires engine.Linked() && name in engine.subscriptions && engine.Rows()[name] == sub
    modifies engine.subscriptions.Values
    ensures engine.Rows() == old(engine.Rows())[name := sub.(lastEventId := Max(sub.lastEventId, lastId),
                                                             lease := AfterRenew(sub.lease, owner, now, lease))]
  {
    if lastId > sub.lastEventId {
      var _ := engine.AdvanceSubscriptionCursor(sub.id, lastId);
    }
    var _ := engine.RenewSubscription(name, owner, now, lease);
  }

  // One row of the table changed, as the turn says.
  predicate TurnGives(rows: map<string, SubscriptionRow>, name: string, s: Seen, f: Filter, opts: Options, turn: Turn,
                      rows': map<string, SubscriptionRow>)
    requires name in rows
  {
    AfterTurn(rows[name], s, f, opts).1 == turn && rows' == rows[name := AfterTurn(rows[name], s, f, opts).0]
  }

  lemma HandedTurnGives(rows: map<string, SubscriptionRow>, name: string, s: Seen, f: Filter, opts: Options,
                        events: seq<SerializedEvent>)
    requires name in rows && rows[name].lease.active && s.round.handlerOk && events != []
    requires events == Render(s.log, Fetch(s.log, f, rows[name].lastEventId, BatchSize(opts)))
    ensures var row, last := rows[name], events[|events| - 1].eventId;
            var row' := row.(lastEventId := Max(row.lastEventId, last),
                             lease := AfterRenew(row.lease, opts.owner, s.round.now, LeaseLength(opts)));
            TurnGives(rows, name, s, f, opts, Handed(events), rows[name := row'])
  {
    FetchCovers(s.log, f, rows[name].lastEventId, BatchSize(opts));
  }

  // A turn that read nothing.
  method RenewIdle(engine: MemoryStorageEngine, name: string, opts: Options, round: Round, sub: SubscriptionRow)
    returns (turn: Turn)
    requires engine.Linked() && name in engine.subscriptions && engine.Rows()[name] == sub && sub.lease.active
    requires Fetch(engine.Log(), engine.FilterOf(sub), sub.lastEventId, BatchSize(opts)) == []
    modifies engine.subscriptions.Values
    ensures TurnGives(old(engine.Rows()), name, Seen(round, engine.Log()), engine.FilterOf(sub), opts, turn,
                      engine.Rows())
  {
    var _ := engine.RenewSubscription(name, opts.owner, round.now, LeaseLength(opts));
    return Idle;
  }

  // The handler, and what follows it.
  method HandleEvents(engine: MemoryStorageEngine, name: string, opts: Options, round: Round, sub: SubscriptionRow,
                      events: seq<SerializedEvent>)
    returns (turn: Turn)
    requires engine.Linked() && name in engine.subscriptions && engine.Rows()[name] == sub && sub.lease.active
    requires events == Render(engine.Log(), Fetch(engine.Log(), engine.FilterOf(sub), sub.lastEventId, BatchSize(opts)))
    requires events != []
    modifies engine.subscriptions.Values
    ensures TurnGives(old(engine.Rows()), name, Seen(round, engine.Log()), engine.FilterOf(sub), opts, turn,
                      engine.Rows())
  {
    ghost var rows, s, f := engine.Rows(), Seen(round, engine.Log()), engine.FilterOf(sub);
    SameEntry(rows, name);
    if !round.handlerOk {
      return Stopped(HandlerFailed);
    }
    HandedTurnGives(rows, name, s, f, opts, events);
    PersistTurn(engine, name, sub, events[|events| - 1].eventId, opts.owner, LeaseLength(opts), round.now);
    return Handed(events);
  }

  /** One turn: reload, fetch, handle, advance, renew. */
  method TakeTurn(engine: MemoryStorageEngine, name: string, opts: Options, round: Round) returns (turn: Turn)
    requires engine.Linked() && name in engine.subscriptions
    modifies engine.subscriptions.Values
    ensures TurnGives(old(engine.Rows()), name, Seen(round, engine.Log()), engine.FilterOf(old(engine.Rows()[name])),
                      opts, turn, engine.Rows())
  {
    var reloaded := engine.GetSubscriptionByName(name);
    var sub := reloaded.value;
    SameEntry(engine.Rows(), name);
    if !sub.lease.active {
      return Stopped(Inactive);
    }
    var events := engine.GetEventsForSubscription(sub, BatchSize(opts));
    if |events| == 0 {
      turn := RenewIdle(engine, name, opts, round, sub);
      return;
    }
    turn := HandleEvents(engine, name, opts, round, sub, events);
  }

  // ---------------- The loop ----------------

  /**
   What a run did to the tables and to the subscriptions: it went through the first of its rounds, all of them if it was
   cancelled, and the outcome, the batches and the one row that changed are those of the given progress.
   */
  ghost predicate Gives(a: Progress, rounds: seq<Round>, t0: LogTables, rows0: map<string, SubscriptionRow>,
                        name: string, seen: seq<Seen>, t: LogTables, rows: map<string, SubscriptionRow>,
                        outcome: Outcome, delivered: seq<seq<SerializedEvent>>) {
    && GoesThrough(rounds, t0, t, seen)
    && (outcome == Cancelled ==> |seen| == |rounds|)
    && outcome == OutcomeOf(a.stop) && delivered == a.delivered && rows == rows0[name := a.row]
  }

  // A run of the loop: its rounds, the tables and the rows that it starts from, and its filter and options.
  datatype LoopRun = LoopRun(
    rounds: seq<Round>,
    t0: LogTables,
    rows0: map<string, SubscriptionRow>,
    name: string,
    f: Filter,
    opts: Options)

  // Where the loop stands: the turns that it took, and the tables and the rows now.
  datatype Stance = Stance(seen: seq<Seen>, t: LogTables, p: Progress, rows: map<string, SubscriptionRow>)

  ghost predicate Stands(r: LoopRun, st: Stance) {
    && r.name in r.rows0
    && GoesThrough(r.rounds, r.t0, st.t, st.seen)
    && st.p == Play(Progress(r.rows0[r.name], [], None), st.seen, r.f, r.opts)
    && st.rows == r.rows0[r.name := st.p.row]
  }

  // The engine is where the loop stands.
  ghost predicate StandsIn(engine: MemoryStorageEngine, r: LoopRun, st: Stance)
    reads engine`capturedEvents, engine`eventTypesInv, engine`aggregateTypesInv
    reads engine`countAggregates, engine`aggregates, engine`aggregateInv, engine`aggregateToTypeId
    reads engine`subscriptions, engine.subscriptions.Values, engine`subscriptionEventTypes
  {
    Stands(r, st) && engine.Tables() == st.t && engine.Rows() == st.rows && engine.FilterOf(st.p.row) == r.f
  }

  // The others' part of the round, and then the row changed as the turn says.
  predicate RoundGives(st: Stance, name: string, s: Seen, f: Filter, opts: Options, turn: Turn,
                       rows: map<string, SubscriptionRow>)
    requires name in st.rows
  {
    && s.log == LogOf(AfterRound(st.t, s.round))
    && TurnGives(st.rows[name := Touched(st.rows[name], s.round)], name, s, f, opts, turn, rows)
  }

  lemma OneMoreSeen(rounds: seq<Round>, t0: LogTables, t: LogTables, seen: seq<Seen>, round: Round)
    requires GoesThrough(rounds, t0, t, seen) && |seen| < |rounds| && round == rounds[|seen|]
    ensures var t' := AfterRound(t, round); GoesThrough(rounds, t0, t', seen + [Seen(round, LogOf(t'))])
  {
    assert rounds[..|seen| + 1][..|seen|] == rounds[..|seen|];
  }

  // What a turn adds to a run that goes on.
  predicate Follows(st: Stance, turn: Turn, after: Stance) {
    && |after.seen| == |st.seen| + 1
    && after.p.delivered == (if turn.Handed? then st.p.delivered + [turn.events] else st.p.delivered)
    && after.p.stop == (if turn.Stopped? then Some(turn.outcome) else None)
    && after.p.stop != Some(Cancelled)
  }

  // The columns that make up the filter.
  predicate SameColumns(row: SubscriptionRow, row': SubscriptionRow) {
    && row'.id == row.id && row'.aggregateTypeId == row.aggregateTypeId
    && row'.eventTypeId == row.eventTypeId && row'.aggregateKey == row.aggregateKey
  }

  lemma MovedAsTurn(p: Progress, s: Seen, f: Filter, opts: Options, turn: Turn)
    requires p.stop.None? && AfterTurn(Touched(p.row, s.round), s, f, opts).1 == turn
    ensures var q := Moved(p, s, f, opts);
            && q.row == AfterTurn(Touched(p.row, s.round), s, f, opts).0 && SameColumns(p.row, q.row)
            && q.delivered == (if turn.Handed? then p.delivered + [turn.events] else p.delivered)
            && q.stop == (if turn.Stopped? then Some(turn.outcome) else None)
            && q.stop != Some(Cancelled)
  {
  }

  lemma PlayOneMore(p: Progress, seen: seq<Seen>, s: Seen, f: Filter, opts: Options)
    ensures Play(p, seen + [s], f, opts) == Moved(Play(p, seen, f, opts), s, f, opts)
  {
    assert (seen + [s])[..|seen|] == seen;
  }

  lemma StandsOneMore(r: LoopRun, st: Stance, s: Seen, turn: Turn, rows: map<string, SubscriptionRow>)
    returns (after: Stance)
    requires Stands(r, st) && st.p.stop.None? && |st.seen| < |r.rounds| && s.round == r.rounds[|st.seen|]
    requires RoundGives(st, r.name, s, r.f, r.opts, turn, rows)
    ensures Stands(r, after) && after.t == AfterRound(st.t, s.round) && after.rows == rows && Follows(st, turn, after)
    ensures SameColumns(st.p.row, after.p.row)
  {
    MovedAsTurn(st.p, s, r.f, r.opts, turn);
    var q := Moved(st.p, s, r.f, r.opts);
    after := Stance(st.seen + [s], AfterRound(st.t, s.round), q, rows);
    assert rows == st.rows[r.name := q.row];
    StandsAfter(r, st, s, q, rows);
  }

  lemma StandsAfter(r: LoopRun, st: Stance, s: Seen, q: Progress, rows: map<string, SubscriptionRow>)
    requires Stands(r, st) && |st.seen| < |r.rounds| && s.round == r.rounds[|st.seen|]
    requires s.log == LogOf(AfterRound(st.t, s.round)) && q == Moved(st.p, s, r.f, r.opts)
    requires rows == st.rows[r.name := q.row]
    ensures Stands(r, Stance(st.seen + [s], AfterRound(st.t, s.round), q, rows))
  {
    OneMoreSeen(r.rounds, r.t0, st.t, st.seen, s.round);
    PlayOneMore(Progress(r.rows0[r.name], [], None), st.seen, s, r.f, r.opts);
    assert rows == r.rows0[r.name := q.row];
  }

  lemma StandsGives(r: LoopRun, st: Stance)
    requires Stands(r, st) && st.p.stop != Some(Cancelled) && (st.p.stop.None? ==> |st.seen| == |r.rounds|)
    ensures Gives(Play(Progress(r.rows0[r.name], [], None), st.seen, r.f, r.opts), r.rounds, r.t0, r.rows0, r.name,
                  st.seen, st.t, st.rows, OutcomeOf(st.p.stop), st.p.delivered)
  {
  }

  /** One round: others first, then a turn of the loop. */
  method PlayRound(engine: MemoryStorageEngine, name: string, opts: Options, round: Round, ghost r: LoopRun,
                   ghost st: Stance)
    returns (turn: Turn, ghost after: Stance)
    requires engine.Linked() && name in engine.subscriptions
    requires StandsIn(engine, r, st) && r.name == name && r.opts == opts
    requires st.p.stop.None? && |st.seen| < |r.rounds| && round == r.rounds[|st.seen|]
    modifies engine`countAggregates, engine`aggregates, engine`aggregateInv, engine`aggregateToTypeId
    modifies engine`capturedEvents, engine`capturedSnapshots, engine.subscriptions.Values
    ensures StandsIn(engine, r, after) && Follows(st, turn, after)
  {
    OthersTurn(engine, name, round);
    turn := TakeTurn(engine, name, opts, round);
    after := StandsOneMore(r, st, Seen(round, engine.Log()), turn, engine.Rows());
  }

  /** The durable loop: it plays its rounds until one of them stops it, or else until it is cancelled after the last. */
  method RunLoop(engine: MemoryStorageEngine, name: string, opts: Options, rounds: seq<Round>)
    returns (outcome: Outcome, delivered: seq<seq<SerializedEvent>>, ghost seen: seq<Seen>)
    requires engine.Linked() && name in engine.subscriptions
    modifies engine`countAggregates, engine`aggregates, engine`aggregateInv, engine`aggregateToTypeId
    modifies engine`capturedEvents, engine`capturedSnapshots, engine.subscriptions.Values
    ensures var row := old(engine.Rows()[name]);
            Gives(Play(Progress(row, [], None), seen, engine.FilterOf(row), opts), rounds, old(engine.Tables()),
                  old(engine.Rows()), name, seen, engine.Tables(), engine.Rows(), outcome, delivered)
  {
    delivered := [];
    ghost var row := engine.Rows()[name];
    ghost var r := LoopRun(rounds, engine.Tables(), engine.Rows(), name, engine.FilterOf(row), opts);
    ghost var st := Stance([], r.t0, Progress(row, [], None), r.rows0);
    SameEntry(r.rows0, name);
    for i := 0 to |rounds|
      invariant StandsIn(engine, r, st)
      invariant |st.seen| == i && st.p.stop.None? && st.p.delivered == delivered
    {
      var turn;
      turn, st := PlayRound(engine, name, opts, rounds[i], r, st);
      match turn
      case Stopped(o) =>
        StandsGives(r, st);
        return o, delivered, st.seen;
      case Idle =>
      case Handed(events) => delivered := delivered + [events];
    }
    StandsGives(r, st);
    return Cancelled, delivered, st.seen;
  }

  // ---------------- Starting a durable runner ----------------

  method AddEventTypes(engine: MemoryStorageEngine, id: int, several: seq<int>)
    modifies engine`subscriptionEventTypes
    ensures JoinedTo(engine.subscriptionEventTypes, id)
         == JoinedTo(old(engine.subscriptionEventTypes), id) + (set t | t in several)
  {
    for i := 0 to |several|
      invariant JoinedTo(engine.subscriptionEventTypes, id)
             == JoinedTo(old(engine.subscriptionEventTypes), id) + (set t | t in several[..i])
    {
      engine.AddSubscriptionEventType(id, several[i]);
      assert several[..i + 1] == several[..i] + [several[i]];
    }
    assert several[..|several|] == several;
  }

  method UpsertRow(engine: MemoryStorageEngine, name: string, aggregateTypeId: Option<int>, eventTypeId: Option<int>,
                   key: Option<string>, start: Start, ghost want: Filter)
    returns (id: int, ghost defined: SubscriptionRow)
    requires engine.Linked() && want == Filter(aggregateTypeId, eventTypeId, key, want.eventTypes)
    modifies engine`subscriptions, engine`subscriptionById, engine`nextSubscriptionId, engine.subscriptions.Values
    ensures engine.Linked() && name in engine.subscriptions
    ensures fresh(engine.subscriptions.Values - old(engine.subscriptions.Values))
    ensures defined == Defined(old(engine.Rows()), old(engine.nextSubscriptionId), name, want, start)
    ensures id == defined.id
    ensures engine.Rows() == old(engine.Rows())[name := defined]
  {
    defined := Defined(engine.Rows(), engine.nextSubscriptionId, name, want, start);
    id := engine.UpsertSubscription(name, aggregateTypeId, eventTypeId, key, start);
    assert engine.Rows()[name].id == id;
  }

  // The filter that the ids make up.
  predicate IsWanted(want: Filter, aggregateTypeId: Option<int>, eventTypeId: Option<int>, several: seq<int>,
                     key: Option<string>) {
    want == Filter(aggregateTypeId, eventTypeId, key, set t | t in several)
  }

  // The upsert and the joined types, from ids.
  method Define(engine: MemoryStorageEngine, name: string, aggregateTypeId: Option<int>, eventTypeId: Option<int>,
                several: seq<int>, key: Option<string>, start: Start, ghost want: Filter)
    returns (ghost defined: SubscriptionRow, ghost f: Filter)
    requires engine.Linked() && IsWanted(want, aggregateTypeId, eventTypeId, several, key)
    modifies engine`subscriptions, engine`subscriptionById, engine`nextSubscriptionId
    modifies engine`subscriptionEventTypes, engine.subscriptions.Values
    ensures engine.Linked() && name in engine.subscriptions
    ensures fresh(engine.subscriptions.Values - old(engine.subscriptions.Values))
    ensures engine.Rows() == old(engine.Rows())[name := defined] && engine.FilterOf(defined) == f
    ensures defined == Defined(old(engine.Rows()), old(engine.nextSubscriptionId), name, want, start)
    ensures f == WithJoined(want, old(engine.subscriptionEventTypes), defined.id)
  {
    var id;
    id, defined := UpsertRow(engine, name, aggregateTypeId, eventTypeId, key, start, want);
    AddEventTypes(engine, id, several);
    f := engine.FilterOf(defined);
  }

  lemma SameTypeIds(names: seq<string>, ids: map<string, int>, several: seq<int>)
    requires |several| == |names| && forall i :: 0 <= i < |names| ==> names[i] in ids && several[i] == ids[names[i]]
    ensures (set t | t in several) == set t | t in names :: ids[t]
  {
    forall id
      ensures id in several <==> exists t :: t in names && ids[t] == id
    {
      if id in several {
        var i :| 0 <= i < |several| && several[i] == id;
        assert names[i] in names;
      }
      if exists t :: t in names && ids[t] == id {
        var t :| t in names && ids[t] == id;
        var i :| 0 <= i < |names| && names[i] == t;
        assert several[i] in several;
      }
    }
  }

  /** The filter by ids, adding the type names that are new. */
  method ResolveFilter(store: EventStore, sf: SubscriptionFilter)
    returns (aggregateTypeId: Option<int>, single: Option<int>, several: seq<int>)
    requires store.Coherent()
    modifies store`eventTypeLookup, store`aggregateTypeLookup
    modifies store.engine`aggregateTypes, store.engine`aggregateTypesInv, store.engine`countAggregateType
    modifies store.engine`eventTypes, store.engine`eventTypesInv, store.engine`countEventTypes
    ensures store.Coherent() && Keeps(old(store.engine.EventTypeTable()), store.engine.EventTypeTable())
    ensures store.engine.Rows() == old(store.engine.Rows())
    ensures Resolves(sf, store.engine.aggregateTypes, store.engine.eventTypes)
    ensures DurableFilter(sf, store.engine.aggregateTypes, store.engine.eventTypes)
         == Filter(aggregateTypeId, single, sf.aggregateKey, set t | t in several)
  {
    aggregateTypeId := store.ResolveAggregateType(sf);
    single, several := store.ResolveEventTypes(sf);
    if |sf.eventTypes| != 1 {
      SameTypeIds(sf.eventTypes, store.engine.eventTypes, several);
    }
  }

  // The tables with the type names that the engine has now.
  function WithNames(t: LogTables, engine: MemoryStorageEngine): LogTables
    reads engine`aggregateTypesInv, engine`eventTypesInv
  {
    t.(aggregateTypes := engine.aggregateTypesInv, eventTypes := engine.eventTypesInv)
  }

  // The same, and nothing else of the engine changes.
  method ResolveInEngine(store: EventStore, sf: SubscriptionFilter)
    returns (aggregateTypeId: Option<int>, single: Option<int>, several: seq<int>)
    requires store.Coherent()
    modifies store`eventTypeLookup, store`aggregateTypeLookup
    modifies store.engine`aggregateTypes, store.engine`aggregateTypesInv, store.engine`countAggregateType
    modifies store.engine`eventTypes, store.engine`eventTypesInv, store.engine`countEventTypes
    ensures store.Coherent() && Keeps(old(store.engine.EventTypeTable()), store.engine.EventTypeTable())
    ensures store.engine.Tables() == WithNames(old(store.engine.Tables()), store.engine)
    ensures store.engine.Rows() == old(store.engine.Rows()) && store.engine.Linked() == old(store.engine.Linked())
    ensures store.engine.nextSubscriptionId == old(store.engine.nextSubscriptionId)
    ensures store.engine.subscriptionEventTypes == old(store.engine.subscriptionEventTypes)
    ensures Resolves(sf, store.engine.aggregateTypes, store.engine.eventTypes)
    ensures IsWanted(DurableFilter(sf, store.engine.aggregateTypes, store.engine.eventTypes), aggregateTypeId, single,
                     several, sf.aggregateKey)
  {
    aggregateTypeId, single, several := ResolveFilter(store, sf);
  }

  method ChooseCursor(engine: MemoryStorageEngine, start: Start) returns (p: Placement)
    ensures p == PlaceCursor(start, engine.Log())
  {
    p := Stay;
    match start.kind
    case End =>
      var maxId := engine.GetMaxEventId();
      if maxId > 0 {
        return MoveTo(maxId);
      }
    case EventId =>
      if start.eventId > 0 {
        return MoveTo(start.eventId);
      }
    case Timestamp =>
      if start.timestamp != ZERO_TIME {
        var firstId := engine.GetFirstEventIdFromTimestamp(start.timestamp);
        if firstId > 0 {
          return MoveTo(firstId - 1);
        }
      }
    case Beginning =>
    case _ => return Reject;
  }

  /** Moves a cursor that is still 0 to where the stored start says; false for a start that the source does not know. */
  method PlaceStoredCursor(engine: MemoryStorageEngine, name: string) returns (known: bool)
    requires engine.Linked() && name in engine.subscriptions
    modifies engine.subscriptions.Values
    ensures var row := old(engine.Rows())[name];
            && (known <==> row.lastEventId != 0 || !PlaceCursor(row.start, engine.Log()).Reject?)
            && engine.Rows() == old(engine.Rows())[name := Placed(row, engine.Log())]
  {
    var loaded := engine.GetSubscriptionByName(name);
    var sub := loaded.value;
    if sub.lastEventId == 0 {
      var p := ChooseCursor(engine, sub.start);
      match p
      case MoveTo(cursor) => var _ := engine.AdvanceSubscriptionCursor(sub.id, cursor);
      case Stay =>
      case Reject => return false;
    }
    return true;
  }

  // The claim and the placing of the cursor; an answer ends the run before its loop.
  method ClaimAndPlace(engine: MemoryStorageEngine, name: string, opts: Options, now: int)
    returns (stop: Option<Outcome>)
    requires engine.Linked() && name in engine.subscriptions
    modifies engine.subscriptions.Values
    ensures var row := old(engine.Rows()[name]);
            && stop == Refusal(row, engine.Log(), now)
            && engine.Rows() == old(engine.Rows())[name := if stop == Some(AlreadyOwned) then row
                                                           else Begun(row, engine.Log(), opts, now).row]
  {
    SameEntry(engine.Rows(), name);
    var claimed := engine.ClaimSubscription(name, opts.owner, now, LeaseLength(opts));
    if !claimed {
      return Some(AlreadyOwned);
    }
    var known := PlaceStoredCursor(engine, name);
    if !known {
      return Some(UnknownStart);
    }
    return None;
  }

  // ---------------- RunSubscription ----------------

  lemma RefusalGives(rounds: seq<Round>, t0: LogTables, rows0: map<string, SubscriptionRow>, name: string,
                     f: Filter, opts: Options, now: int)
    requires name in rows0 && Refusal(rows0[name], LogOf(t0), now).Some?
    ensures var a := Answer(LogOf(t0), [], rows0[name], f, opts, now);
            Gives(a, rounds, t0, rows0, name, [], t0, rows0[name := a.row], OutcomeOf(a.stop), [])
  {
  }

  // The release after the loop, on the row that the loop left.
  lemma LoopGives(rounds: seq<Round>, t0: LogTables, rows0: map<string, SubscriptionRow>, name: string, f: Filter,
                  opts: Options, now: int, seen: seq<Seen>, t: LogTables, rows1: map<string, SubscriptionRow>,
                  rows: map<string, SubscriptionRow>, outcome: Outcome, delivered: seq<seq<SerializedEvent>>)
    requires name in rows0 && Refusal(rows0[name], LogOf(t0), now).None?
    requires rows1 == rows0[name := Begun(rows0[name], LogOf(t0), opts, now).row]
    requires Gives(Play(Progress(rows1[name], [], None), seen, f, opts), rounds, t0, rows1, name, seen, t, rows,
                   outcome, delivered)
    ensures var released := rows[name := rows[name].(lease := AfterRelease(rows[name].lease, opts.owner))];
            Gives(Answer(LogOf(t0), seen, rows0[name], f, opts, now), rounds, t0, rows0, name, seen, t, released,
                  outcome, delivered)
  {
  }

  // The loop and the deferred release, after a claim that was not refused.
  method RunPlaced(engine: MemoryStorageEngine, name: string, opts: Options, now: int, rounds: seq<Round>,
                   ghost rows0: map<string, SubscriptionRow>)
    returns (outcome: Outcome, delivered: seq<seq<SerializedEvent>>, ghost seen: seq<Seen>)
    requires engine.Linked() && name in engine.subscriptions
    requires name in rows0 && Refusal(rows0[name], engine.Log(), now).None?
    requires engine.Rows() == rows0[name := Begun(rows0[name], engine.Log(), opts, now).row]
    modifies engine`countAggregates, engine`aggregates, engine`aggregateInv, engine`aggregateToTypeId
    modifies engine`capturedEvents, engine`capturedSnapshots, engine.subscriptions.Values
    ensures Gives(Answer(old(engine.Log()), seen, rows0[name], engine.FilterOf(rows0[name]), opts, now), rounds,
                  old(engine.Tables()), rows0, name, seen, engine.Tables(), engine.Rows(), outcome, delivered)
  {
    ghost var t0, rows1, f := engine.Tables(), engine.Rows(), engine.FilterOf(rows0[name]);
    assert engine.FilterOf(rows1[name]) == f;
    outcome, delivered, seen := RunLoop(engine, name, opts, rounds);
    LoopGives(rounds, t0, rows0, name, f, opts, now, seen, engine.Tables(), rows1, engine.Rows(), outcome, delivered);
    engine.ReleaseSubscription(name, opts.owner);
  }

  // From the stored definition on.
  method ClaimAndRun(engine: MemoryStorageEngine, name: string, opts: Options, now: int, rounds: seq<Round>)
    returns (outcome: Outcome, delivered: seq<seq<SerializedEvent>>, ghost seen: seq<Seen>)
    requires engine.Linked() && name in engine.subscriptions
    modifies engine`countAggregates, engine`aggregates, engine`aggregateInv, engine`aggregateToTypeId
    modifies engine`capturedEvents, engine`capturedSnapshots, engine.subscriptions.Values
    ensures var defined := old(engine.Rows()[name]);
            Gives(Answer(old(engine.Log()), seen, defined, engine.FilterOf(defined), opts, now), rounds,
                  old(engine.Tables()), old(engine.Rows()), name, seen, engine.Tables(), engine.Rows(), outcome,
                  delivered)
  {
    ghost var t0, rows0, f := engine.Tables(), engine.Rows(), engine.FilterOf(engine.Rows()[name]);
    var stop := ClaimAndPlace(engine, name, opts, now);
    if stop.None? {
      outcome, delivered, seen := RunPlaced(engine, name, opts, now, rounds, rows0);
      return;
    }
    RefusalGives(rounds, t0, rows0, name, f, opts, now);
    if stop == Some(UnknownStart) {
      engine.ReleaseSubscription(name, opts.owner);
    }
    return stop.value, [], [];
  }

  // The same, and every subscription is still found by name and by id.
  method RunDefined(engine: MemoryStorageEngine, name: string, opts: Options, now: int, rounds: seq<Round>)
    returns (outcome: Outcome, delivered: seq<seq<SerializedEvent>>, ghost seen: seq<Seen>)
    requires engine.Linked() && name in engine.subscriptions
    modifies engine`countAggregates, engine`aggregates, engine`aggregateInv, engine`aggregateToTypeId
    modifies engine`capturedEvents, engine`capturedSnapshots, engine.subscriptions.Values
    ensures engine.Linked() && name in engine.subscriptions
    ensures var defined := old(engine.Rows()[name]);
            Gives(Answer(old(engine.Log()), seen, defined, engine.FilterOf(defined), opts, now), rounds,
                  old(engine.Tables()), old(engine.Rows()), name, seen, engine.Tables(), engine.Rows(), outcome,
                  delivered)
  {
    outcome, delivered, seen := ClaimAndRun(engine, name, opts, now, rounds);
  }

  /**
   What a run of a subscription gives, from the stored rows, the last id and the joined types: the answer for the row
   that its definition leaves and the filter that its columns and joined types make up.
   */
  ghost predicate RunGives(rows0: map<string, SubscriptionRow>, last: int, joined: map<int, set<int>>, name: string,
                           want: Filter, start: Start, opts: Options, now: int, rounds: seq<Round>, t0: LogTables,
                           seen: seq<Seen>, t: LogTables, rows: map<string, SubscriptionRow>, outcome: Outcome,
                           delivered: seq<seq<SerializedEvent>>) {
    var defined := Defined(rows0, last, name, want, start);
    var f := WithJoined(want, joined, defined.id);
    Gives(Answer(LogOf(t0), seen, defined, f, opts, now), rounds, t0, rows0, name, seen, t, rows, outcome, delivered)
  }

  // The definition is written into the row that the run goes on to change.
  lemma DefinedGives(rows0: map<string, SubscriptionRow>, last: int, joined: map<int, set<int>>, name: string,
                     want: Filter, start: Start, opts: Options, now: int, rounds: seq<Round>, t0: LogTables,
                     seen: seq<Seen>, t: LogTables, rows: map<string, SubscriptionRow>, outcome: Outcome,
                     delivered: seq<seq<SerializedEvent>>, defined: SubscriptionRow, f: Filter)
    requires defined == Defined(rows0, last, name, want, start) && f == WithJoined(want, joined, defined.id)
    requires Gives(Answer(LogOf(t0), seen, defined, f, opts, now), rounds, t0, rows0[name := defined], name, seen, t,
                   rows, outcome, delivered)
    ensures RunGives(rows0, last, joined, name, want, start, opts, now, rounds, t0, seen, t, rows, outcome,
                     delivered)
  {
  }

  // From the resolved filter on.
  method DefineAndRun(engine: MemoryStorageEngine, name: string, aggregateTypeId: Option<int>, eventTypeId: Option<int>,
                      several: seq<int>, key: Option<string>, start: Start, opts: Options, now: int, rounds: seq<Round>,
                      ghost want: Filter)
    returns (outcome: Outcome, delivered: seq<seq<SerializedEvent>>, ghost seen: seq<Seen>)
    requires engine.Linked() && IsWanted(want, aggregateTypeId, eventTypeId, several, key)
    modifies engine`subscriptions, engine`subscriptionById, engine`nextSubscriptionId, engine`subscriptionEventTypes
    modifies engine`countAggregates, engine`aggregates, engine`aggregateInv, engine`aggregateToTypeId
    modifies engine`capturedEvents, engine`capturedSnapshots, engine.subscriptions.Values
    ensures engine.Linked() && name in engine.subscriptions
    ensures RunGives(old(engine.Rows()), old(engine.nextSubscriptionId), old(engine.subscriptionEventTypes), name,
                     want, start, opts, now, rounds, old(engine.Tables()), seen, engine.Tables(), engine.Rows(),
                     outcome, delivered)
  {
    ghost var t0, rows0 := engine.Tables(), engine.Rows();
    ghost var last, joined := engine.nextSubscriptionId, engine.subscriptionEventTypes;
    ghost var defined, f := Define(engine, name, aggregateTypeId, eventTypeId, several, key, start, want);
    outcome, delivered, seen := RunDefined(engine, name, opts, now, rounds);
    DefinedGives(rows0, last, joined, name, want, start, opts, now, rounds, t0, seen, engine.Tables(), engine.Rows(),
                 outcome, delivered, defined, f);
  }

  // The same beside a store, whose caches stay coherent.
  method DefineAndRunBeside(store: EventStore, name: string, aggregateTypeId: Option<int>, eventTypeId: Option<int>,
                            several: seq<int>, key: Option<string>, start: Start, opts: Options, now: int,
                            rounds: seq<Round>, ghost want: Filter)
    returns (outcome: Outcome, delivered: seq<seq<SerializedEvent>>, ghost seen: seq<Seen>)
    requires store.Coherent() && store.engine.Linked() && IsWanted(want, aggregateTypeId, eventTypeId, several, key)
    modifies store.engine`subscriptions, store.engine`subscriptionById, store.engine`nextSubscriptionId
    modifies store.engine`subscriptionEventTypes
    modifies store.engine`countAggregates, store.engine`aggregates, store.engine`aggregateInv
    modifies store.engine`aggregateToTypeId
    modifies store.engine`capturedEvents, store.engine`capturedSnapshots, store.engine.subscriptions.Values
    ensures store.Coherent() && store.engine.Linked() && name in store.engine.subscriptions
    ensures store.engine.aggregateTypes == old(store.engine.aggregateTypes)
    ensures store.engine.eventTypes == old(store.engine.eventTypes)
    ensures RunGives(old(store.engine.Rows()), old(store.engine.nextSubscriptionId),
                     old(store.engine.subscriptionEventTypes), name, want, start, opts, now, rounds,
                     old(store.engine.Tables()), seen, store.engine.Tables(), store.engine.Rows(), outcome, delivered)
  {
    ghost var eventTypes, aggregateTypes := store.engine.EventTypeTable(), store.engine.AggregateTypeTable();
    outcome, delivered, seen :=
      DefineAndRun(store.engine, name, aggregateTypeId, eventTypeId, several, key, start, opts, now, rounds, want);
    assert store.engine.EventTypeTable() == eventTypes;
    assert store.engine.AggregateTypeTable() == aggregateTypes;
  }

  /**
   RunSubscription with one runner, while others commit: what it hands over, how it ends and the row that it leaves are
   those of the run as defined, over the logs that the rounds leave to its turns, and no other subscription changes. It
   may add type names, and takes none away.
   */
  method RunSubscription(store: EventStore, name: string, sf: SubscriptionFilter, start: Start, opts: Options, now: int,
                         rounds: seq<Round>)
    returns (outcome: Outcome, delivered: seq<seq<SerializedEvent>>, ghost seen: seq<Seen>)
    requires store.Coherent() && store.engine.Linked()
    modifies store`eventTypeLookup, store`aggregateTypeLookup, store.engine, store.engine.subscriptions.Values
    ensures store.Coherent() && store.engine.Linked() && name in store.engine.subscriptions
    ensures Resolves(sf, store.engine.aggregateTypes, store.engine.eventTypes)
    ensures Keeps(old(store.engine.EventTypeTable()), store.engine.EventTypeTable())
    ensures RunGives(old(store.engine.Rows()), old(store.engine.nextSubscriptionId),
                     old(store.engine.subscriptionEventTypes), name,
                     DurableFilter(sf, store.engine.aggregateTypes, store.engine.eventTypes), start, opts, now, rounds,
                     WithNames(old(store.engine.Tables()), store.engine), seen, store.engine.Tables(),
                     store.engine.Rows(), outcome, delivered)
  {
    var aggregateTypeId, single, several := ResolveInEngine(store, sf);
    ghost var want := DurableFilter(sf, store.engine.aggregateTypes, store.engine.eventTypes);
    outcome, delivered, seen :=
      DefineAndRunBeside(store, name, aggregateTypeId, single, several, sf.aggregateKey, start, opts, now, rounds,
                         want);
  }
}
