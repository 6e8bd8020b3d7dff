/** What a call of RunSubscription promises, in terms of the subscriptions that were stored before it. */
module StoredSubscriptions {
  import opened Wrappers
  import opened Records
  import opened EventLog
  import opened TypeNames
  import opened EngineTables
  import opened Leases
  import opened Draining
  import opened Delivery
  import opened DeliveryBounds
  import opened MemoryEngine
  import opened SubscriptionRuns
  import opened Subscriptions
  import opened EphemeralSubscriptions
  import opened SubscriptionTheorems
  import opened RunnerSteps
  import opened StartPositions

  /** A call, with what was stored before it and what it left. */
  datatype Call = Call(
    rows0: map<string, SubscriptionRow>,
    last: int,
    joined: map<int, set<int>>,
    name: string,
    want: Filter,
    start: Start,
    opts: Options,
    now: int,
    rounds: seq<Round>,
    t0: LogTables,
    seen: seq<Seen>,
    t: LogTables,
    rows: map<string, SubscriptionRow>,
    outcome: Outcome,
    delivered: seq<seq<SerializedEvent>>)

  // What the contract of RunSubscription says of it.
  ghost predicate Gave(c: Call) {
    RunGives(c.rows0, c.last, c.joined, c.name, c.want, c.start, c.opts, c.now, c.rounds, c.t0, c.seen, c.t, c.rows,
             c.outcome, c.delivered)
  }

  // Somebody holds the lease of the subscription, or it is not active.
  predicate Unavailable(rows: map<string, SubscriptionRow>, name: string, now: int) {
    && name in rows
    && var l := rows[name].lease;
       !l.active || (l.owner.Some? && l.expires.Some? && now <= l.expires.value)
  }

  // Those columns of the row that a caller's definition does not give.
  predicate SameState(row: SubscriptionRow, row': SubscriptionRow) {
    row'.id == row.id && row'.name == row.name && row'.lastEventId == row.lastEventId && row'.lease == row.lease
  }

  predicate HasDefinition(row: SubscriptionRow, want: Filter, start: Start) {
    && row.aggregateTypeId == want.aggregateTypeId && row.eventTypeId == want.eventTypeId
    && row.aggregateKey == want.aggregateKey && row.start == start
  }

  /** The upsert, column by column: it replaces what the caller gives, and a known subscription keeps all the rest. */
  lemma DefinesColumns(rows: map<string, SubscriptionRow>, last: int, name: string, want: Filter, start: Start)
    ensures var row := Defined(rows, last, name, want, start);
            && HasDefinition(row, want, start)
            && (name in rows ==> SameState(rows[name], row))
            && (name !in rows ==>
                  row.id == last + 1 && row.name == name && row.lastEventId == 0
                  && row.lease == LeaseRecord(true, None, None))
  {
  }

  /**
   A call is refused exactly where the subscription that was stored before it is held by somebody, up to and including
   the expiry, or is not active. It then hands over nothing, and leaves the cursor and the lease as they were. No call
   changes another subscription.
   */
  lemma HeldIsRefused(c: Call)
    requires Gave(c)
    ensures c.outcome == AlreadyOwned <==> Unavailable(c.rows0, c.name, c.now)
    ensures c.outcome == AlreadyOwned ==>
              c.delivered == [] && c.name in c.rows && SameState(c.rows0[c.name], c.rows[c.name])
    ensures SameOthers(c)
  {
    var row := Defined(c.rows0, c.last, c.name, c.want, c.start);
    StopsForReason(LogOf(c.t0), c.seen, row, WithJoined(c.want, c.joined, row.id), c.opts, c.now);
  }

  ghost predicate SameOthers(c: Call) {
    forall other :: other != c.name ==>
      (other in c.rows0 <==> other in c.rows) && (other in c.rows0 ==> c.rows[other] == c.rows0[other])
  }

  lemma StopsForReason(log0: seq<LogRow>, seen: seq<Seen>, defined: SubscriptionRow, f: Filter, opts: Options, now: int)
    ensures var a := Answer(log0, seen, defined, f, opts, now);
            && (a.stop == Some(AlreadyOwned) <==> !MayClaim(defined.lease, now))
            && (a.stop == Some(UnknownStart) ==> Refusal(defined, log0, now) == Some(UnknownStart))
            && (Refusal(defined, log0, now).Some? ==> a.stop == Refusal(defined, log0, now))
  {
    if Refusal(defined, log0, now).None? {
      LoopStops(Begun(defined, log0, opts, now), seen, f, opts);
    }
  }

  // The filter that the call reads with: what the caller wants and the types that were joined to the row before.
  function FilterOf(c: Call): Filter {
    WithJoined(c.want, c.joined, Defined(c.rows0, c.last, c.name, c.want, c.start).id)
  }

  /** A known subscription that has read before goes on after the cursor that was stored, whatever start is given. */
  lemma KnownGoesOn(c: Call)
    requires Gave(c) && Sound(c.t0) && CreatesOnly(c.rounds)
    requires !Unavailable(c.rows0, c.name, c.now) && c.name in c.rows0 && c.rows0[c.name].lastEventId != 0
    ensures c.outcome !in {AlreadyOwned, UnknownStart} && c.name in c.rows
    ensures c.rows0[c.name].lastEventId <= c.rows[c.name].lastEventId
    ensures HandsExactly(LogOf(c.t), FilterOf(c), c.rows0[c.name].lastEventId, c.rows[c.name].lastEventId, c.delivered)
  {
    LogsGrew(c.rounds, c.t0, c.t, c.seen);
    var row := Defined(c.rows0, c.last, c.name, c.want, c.start);
    ResumesAfterCursor(LogOf(c.t0), c.seen, row, FilterOf(c), c.opts, c.now);
  }

  /**
   A subscription that is new or has not read yet starts where the caller says, on the log as it is at the call, and
   hands over every match from there to the cursor that it leaves.
   */
  lemma NewStarts(c: Call, n: int)
    requires Gave(c) && Sound(c.t0) && CreatesOnly(c.rounds)
    requires !Unavailable(c.rows0, c.name, c.now) && (c.name in c.rows0 ==> c.rows0[c.name].lastEventId == 0)
    requires LeavesOut(c.start, LogOf(c.t0), n) && c.start.kind != Unset
    ensures c.outcome !in {AlreadyOwned, UnknownStart} && c.name in c.rows && n <= c.rows[c.name].lastEventId
    ensures HandsExactly(LogOf(c.t), FilterOf(c), n, c.rows[c.name].lastEventId, c.delivered)
  {
    LogsGrew(c.rounds, c.t0, c.t, c.seen);
    var row := Defined(c.rows0, c.last, c.name, c.want, c.start);
    StartsWhereItSays(LogOf(c.t0), c.seen, row, FilterOf(c), c.opts, c.now, n);
  }

  /** An unknown start, and the empty one, is reported exactly where it would have to be used. */
  lemma UnknownIsReported(c: Call)
    requires Gave(c) && Sound(c.t0) && CreatesOnly(c.rounds)
    ensures c.outcome == UnknownStart
            <==> && !Unavailable(c.rows0, c.name, c.now)
                 && (c.name in c.rows0 ==> c.rows0[c.name].lastEventId == 0)
                 && (c.start.kind == Unknown || c.start.kind == Unset)
    ensures c.outcome == UnknownStart ==> c.delivered == [] && c.rows[c.name].lastEventId == 0
  {
    LogsGrew(c.rounds, c.t0, c.t, c.seen);
    var row := Defined(c.rows0, c.last, c.name, c.want, c.start);
    StopsForReason(LogOf(c.t0), c.seen, row, FilterOf(c), c.opts, c.now);
    if MayClaim(row.lease, c.now) && row.lastEventId == 0 {
      UnknownIsRefused(LogOf(c.t0), c.seen, row, FilterOf(c), c.opts, c.now);
    }
  }

  // ---------------- What is handed over, by name and field by field ----------------

  /** The stored event is of the aggregate type, key and event types that the caller names, where it names any. */
  predicate WantedBy(sf: SubscriptionFilter, t: LogTables, id: int)
    requires 1 <= id <= |t.events|
  {
    var e := t.events[id - 1];
    && (sf.aggregateType == "" ||
        (e.aggregateId in t.keys.typeOf && t.keys.typeOf[e.aggregateId] in t.aggregateTypes
         && t.aggregateTypes[t.keys.typeOf[e.aggregateId]] == sf.aggregateType))
    && (sf.aggregateKey == None || (e.aggregateId in t.keys.keyOf && t.keys.keyOf[e.aggregateId] == sf.aggregateKey))
    && (sf.eventTypes == [] || (e.eventTypeId in t.eventTypes && t.eventTypes[e.eventTypeId] in sf.eventTypes))
  }

  // The tables' names are those of two tables that lead both ways, and what the events refer to is there.
  ghost predicate NamedBy(t: LogTables, aggregateTypes: NameTable, eventTypes: NameTable) {
    && OneToOne(aggregateTypes) && OneToOne(eventTypes)
    && t.aggregateTypes == aggregateTypes.byId && t.eventTypes == eventTypes.byId
    && References(t.events, t.keys, t.eventTypes)
    && forall id :: id in t.keys.typeOf ==> t.keys.typeOf[id] in t.aggregateTypes
  }

  /** The filter of ids that a caller's names resolve to lets through exactly the events that the caller names. */
  lemma FilterIsWanted(sf: SubscriptionFilter, aggregateTypes: NameTable, eventTypes: NameTable, t: LogTables, id: int)
    requires NamedBy(t, aggregateTypes, eventTypes) && Resolves(sf, aggregateTypes.byName, eventTypes.byName)
    requires 1 <= id <= |t.events|
    ensures var f := DurableFilter(sf, aggregateTypes.byName, eventTypes.byName);
            Matches(f, LogOf(t)[id - 1]) <==> WantedBy(sf, t, id)
    ensures var g, row := EphemeralFilter(sf, aggregateTypes.byName, eventTypes.byName), LogOf(t)[id - 1];
            (Matches(g, row) && IsKept(NamesToKeep(sf), row)) <==> WantedBy(sf, t, id)
  {
    ViewIsCoherent(t.events, t.keys, eventTypes);
    FiltersAgree(sf, aggregateTypes.byName, eventTypes.byName, LogOf(t), id - 1);
    var e, row := t.events[id - 1], LogOf(t)[id - 1];
    assert row == RowOf(e, t.keys, t.eventTypes) && e.aggregateId in t.keys.typeOf && e.eventTypeId in t.eventTypes;
    if |sf.eventTypes| == 1 {
      assert row.eventType == sf.eventTypes[0] <==> row.eventTypeId == eventTypes.byName[sf.eventTypes[0]];
    }
  }

  lemma HandedCarries(t: LogTables, f: Filter, from: int, cursor: int, delivered: seq<seq<SerializedEvent>>)
    requires HandedOver(LogOf(t), f, from, cursor, delivered)
    ensures forall e :: e in Concat(delivered) ==> CarriesStored(t.events, t.eventTypes, e)
  {
    var ids := SelectUpTo(LogOf(t), f, from, cursor);
    SelectInLog(LogOf(t), f, from, Min(cursor, |t.events|));
    RenderCarries(t, ids);
    forall e | e in Concat(delivered)
      ensures CarriesStored(t.events, t.eventTypes, e)
    {
      var i :| 0 <= i < |ids| && Render(LogOf(t), ids)[i] == e;
    }
  }

  /** Every event that a call hands over carries, field by field, what is stored under its id. */
  lemma HandsOverFields(c: Call)
    requires Gave(c) && Sound(c.t0) && CreatesOnly(c.rounds)
    ensures forall e :: e in Concat(c.delivered) ==> CarriesStored(c.t.events, c.t.eventTypes, e)
  {
    var row := Defined(c.rows0, c.last, c.name, c.want, c.start);
    var a := Answer(LogOf(c.t0), c.seen, row, FilterOf(c), c.opts, c.now);
    LogsGrew(c.rounds, c.t0, c.t, c.seen);
    RunHandsOver(LogOf(c.t0), c.seen, row, FilterOf(c), c.opts, c.now);
    if a.stop !in {Some(AlreadyOwned), Some(UnknownStart)} {
      HandedCarries(c.t, FilterOf(c), Placed(row, LogOf(c.t0)).lastEventId, a.row.lastEventId, c.delivered);
    }
  }

  /** A call for a new subscription hands over exactly the events that the caller names, from where the start says. */
  lemma NewHandsOverWanted(c: Call, n: int, sf: SubscriptionFilter, aggregateTypes: NameTable, eventTypes: NameTable,
                           id: int)
    requires Gave(c) && Sound(c.t0) && CreatesOnly(c.rounds) && NamedBy(c.t, aggregateTypes, eventTypes)
    requires Resolves(sf, aggregateTypes.byName, eventTypes.byName)
    requires c.want == DurableFilter(sf, aggregateTypes.byName, eventTypes.byName)
    requires c.name !in c.rows0 && c.last + 1 !in c.joined
    requires LeavesOut(c.start, LogOf(c.t0), n) && c.start.kind != Unset
    ensures c.name in c.rows
    ensures HasId(c.delivered, id) <==> n < id <= Min(c.rows[c.name].lastEventId, |c.t.events|) && WantedBy(sf, c.t, id)
  {
    NewStarts(c, n);
    assert FilterOf(c) == c.want;
    if 1 <= id <= |c.t.events| {
      FilterIsWanted(sf, aggregateTypes, eventTypes, c.t, id);
    }
  }

  /**
   So does an ephemeral call, up to where it has read: each event that the caller names, from where the start says, and
   each with every field as it is stored.
   */
  lemma LocalHandsOverWanted(a: LocalProgress, rounds: seq<Round>, t0: LogTables, seen: seq<Seen>, t: LogTables,
                             outcome: Outcome, delivered: seq<seq<SerializedEvent>>, sf: SubscriptionFilter,
                             aggregateTypes: NameTable, eventTypes: NameTable, start: Start, opts: Options, n: int)
    requires Resolves(sf, aggregateTypes.byName, eventTypes.byName) && NamedBy(t, aggregateTypes, eventTypes)
    requires a == LocalAnswer(LogOf(t0), seen, EphemeralFilter(sf, aggregateTypes.byName, eventTypes.byName),
                              NamesToKeep(sf), start, opts)
    requires GivesLocally(a, rounds, t0, seen, t, outcome, delivered) && Sound(t0) && CreatesOnly(rounds)
    requires LeavesOut(start, LogOf(t0), n)
    ensures n <= a.cursor
    ensures forall id :: HasId(delivered, id) <==> n < id <= Min(a.cursor, |t.events|) && WantedBy(sf, t, id)
    ensures forall e :: e in Concat(delivered) ==> CarriesStored(t.events, t.eventTypes, e)
  {
    var g := EphemeralFilter(sf, aggregateTypes.byName, eventTypes.byName);
    LogsGrew(rounds, t0, t, seen);
    LocalStartsWhereItSays(LogOf(t0), seen, g, NamesToKeep(sf), start, opts, n);
    forall id
      ensures HasId(delivered, id) <==> n < id <= Min(a.cursor, |t.events|) && WantedBy(sf, t, id)
    {
      if 1 <= id <= |t.events| {
        FilterIsWanted(sf, aggregateTypes, eventTypes, t, id);
      }
    }
    LocalRunHandsOver(LogOf(t0), seen, g, NamesToKeep(sf), start, opts);
    KeptCarries(t, g, NamesToKeep(sf), EphemeralCursor(start, LogOf(t0)).value, a.cursor, delivered);
  }

  lemma KeptCarries(t: LogTables, g: Filter, names: Option<set<string>>, from: int, cursor: int,
                    delivered: seq<seq<SerializedEvent>>)
    requires KeptOver(LogOf(t), g, names, from, cursor, delivered)
    ensures forall e :: e in Concat(delivered) ==> CarriesStored(t.events, t.eventTypes, e)
  {
    var ids := KeepNames(LogOf(t), names, SelectUpTo(LogOf(t), g, from, cursor));
    KeepNamesStays(LogOf(t), LogOf(t), names, SelectUpTo(LogOf(t), g, from, cursor));
    RenderCarries(t, ids);
    forall e | e in Concat(delivered)
      ensures CarriesStored(t.events, t.eventTypes, e)
    {
      var i :| 0 <= i < |ids| && Render(LogOf(t), ids)[i] == e;
    }
  }

  // ---------------- The call as a run of many runners' machine ----------------

  /** The upsert of a known subscription is the machine's step: the cursor and the lease stay. */
  lemma UpsertIsRegister(f: Filter, w: World, rows: map<string, SubscriptionRow>, last: int, name: string, want: Filter,
                         start: Start, r: int, owner: string)
    requires name in rows && Stores(w, w.log, rows[name]) && r !in w.runners
    ensures var v := w.(start := start, runners := w.runners[r := Runner(owner, Upserted)]);
            && Next(f, w, Register(r, owner, start)) == Some(v)
            && Stores(v, w.log, Defined(rows, last, name, want, start)) && At(v, r, owner, Upserted)
  {
  }

  /** That of a new one leads from a fresh world to what is then stored. */
  lemma InsertIsRegister(f: Filter, log: seq<LogRow>, clock: int, rows: map<string, SubscriptionRow>, last: int,
                         name: string, want: Filter, start: Start, r: int, owner: string)
    requires name !in rows
    ensures Next(f, Fresh(log, clock), Register(r, owner, start)).Some?
    ensures var v := Next(f, Fresh(log, clock), Register(r, owner, start)).value;
            Stores(v, log, Defined(rows, last, name, want, start)) && At(v, r, owner, Upserted)
  {
  }

  /**
   So the whole call, from what was stored before it to what it leaves, is a run of the machine that begins by
   registering, whatever other runners have done to the subscription before.
   */
  lemma CallIsRun(c: Call, w: World, r: int) returns (steps: seq<Step>, v: World)
    requires Gave(c) && Sound(c.t0) && CreatesOnly(c.rounds) && w.log == LogOf(c.t0) && r !in w.runners
    requires if c.name in c.rows0 then Stores(w, w.log, c.rows0[c.name]) else w == Fresh(w.log, w.clock)
    requires w.clock == c.now && ClockRuns(c.now, c.seen)
    ensures Run(FilterOf(c), w, [Register(r, c.opts.owner, c.start)] + steps) == Some(v) && OnlyAround(steps, r)
    ensures c.name in c.rows && r !in v.runners
    ensures v.cursor == c.rows[c.name].lastEventId && v.lease == c.rows[c.name].lease
    ensures v.acked == w.acked + EventIdsOf(c.delivered)
  {
    var f, row := FilterOf(c), Defined(c.rows0, c.last, c.name, c.want, c.start);
    var w1 := w.(start := c.start, runners := w.runners[r := Runner(c.opts.owner, Upserted)]);
    LogsGrew(c.rounds, c.t0, c.t, c.seen);
    RunChain(f, [w, w1], [Register(r, c.opts.owner, c.start)]);
    steps, v := CodeIsRun(f, w1, c.seen, row, r, c.opts);
    RunConcat(f, w, [Register(r, c.opts.owner, c.start)], steps);
  }
}
