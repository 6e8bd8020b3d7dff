/** The in-memory storage engine: counters, maps and slices changed in place. */
module MemoryEngine {
  import opened Wrappers
  import opened Records
  import opened EventLog
  import opened TypeNames
  import opened NaturalKeys
  import opened EngineTables
  import opened EventStreams
  import opened Leases

  /** The columns of a subscription, as GetSubscriptionByName copies them out. */
  datatype SubscriptionRow = SubscriptionRow(
    id: int,
    name: string,
    aggregateTypeId: Option<int>,
    eventTypeId: Option<int>,
    aggregateKey: Option<string>,
    start: Start,
    lastEventId: int,
    lease: LeaseRecord)

  // A subscription as the upsert inserts it: at 0, active and free.
  function NewRow(id: int, name: string, aggregateTypeId: Option<int>, eventTypeId: Option<int>,
                  aggregateKey: Option<string>, start: Start): SubscriptionRow {
    SubscriptionRow(id, name, aggregateTypeId, eventTypeId, aggregateKey, start, 0, LeaseRecord(true, None, None))
  }

  // A subscription as the upsert updates it: the cursor and the lease stay.
  function Redefined(row: SubscriptionRow, aggregateTypeId: Option<int>, eventTypeId: Option<int>,
                     aggregateKey: Option<string>, start: Start): SubscriptionRow {
    row.(aggregateTypeId := aggregateTypeId, eventTypeId := eventTypeId, aggregateKey := aggregateKey, start := start)
  }

  function WithLease(rows: map<string, SubscriptionRow>, name: string, lease: LeaseRecord): map<string, SubscriptionRow>
    requires name in rows
  {
    rows[name := rows[name].(lease := lease)]
  }

  class Subscription {
    const id: int
    const name: string
    var aggregateTypeId: Option<int>
    var eventTypeId: Option<int>
    var aggregateKey: Option<string>
    var start: Start
    var lastEventId: int
    var active: bool
    var leaseOwner: Option<string>
    var leaseExpiresAt: Option<int>

    constructor (id: int, name: string, aggregateTypeId: Option<int>, eventTypeId: Option<int>,
                 aggregateKey: Option<string>, start: Start)
      ensures this.id == id && this.name == name
      ensures Row() == NewRow(id, name, aggregateTypeId, eventTypeId, aggregateKey, start)
    {
      this.id, this.name := id, name;
      this.aggregateTypeId, this.eventTypeId, this.aggregateKey := aggregateTypeId, eventTypeId, aggregateKey;
      this.start, lastEventId, active := start, 0, true;
      leaseOwner, leaseExpiresAt := None, None;
    }

    function Row(): SubscriptionRow
      reads this
    {
      SubscriptionRow(id, name, aggregateTypeId, eventTypeId, aggregateKey, start, lastEventId,
                      LeaseRecord(active, leaseOwner, leaseExpiresAt))
    }
  }

  // The event types joined to a subscription's id.
  function JoinedTo(joined: map<int, set<int>>, id: int): set<int> {
    if id in joined then joined[id] else {}
  }

  // Both maps of subscriptions lead to the same records, by name and by id.
  ghost predicate LinkedMaps(byName: map<string, Subscription>, byId: map<int, Subscription>, last: int) {
    && 0 <= last
    && (forall n :: n in byName ==>
          byName[n].name == n && 1 <= byName[n].id <= last && byName[n].id in byId && byId[byName[n].id] == byName[n])
    && (forall id :: id in byId ==>
          byId[id].id == id && byId[id].name in byName && byName[byId[id].name] == byId[id])
  }

  class MemoryStorageEngine {
    var capturedEvents: seq<StorageEvent>
    var capturedSnapshots: seq<Snapshot>

    var aggregateTypes: map<string, int>
    var aggregateTypesInv: map<int, string>
    var eventTypes: map<string, int>
    var eventTypesInv: map<int, string>
    var countAggregateType: int
    var countEventTypes: int

    var countAggregates: int
    var aggregateToTypeId: map<int, int>
    var aggregates: map<string, int>
    var aggregateInv: map<int, Option<string>>

    var subscriptions: map<string, Subscription>
    var subscriptionById: map<int, Subscription>
    var subscriptionEventTypes: map<int, set<int>>
    var nextSubscriptionId: int

    // ---------------- What the fields stand for ----------------

    function EventTypeTable(): NameTable
      reads `eventTypes, `eventTypesInv, `countEventTypes
    {
      NameTable(eventTypes, eventTypesInv, countEventTypes)
    }

    function AggregateTypeTable(): NameTable
      reads `aggregateTypes, `aggregateTypesInv, `countAggregateType
    {
      NameTable(aggregateTypes, aggregateTypesInv, countAggregateType)
    }

    function Keys(): KeyIndex
      reads `countAggregates, `aggregates, `aggregateInv, `aggregateToTypeId
    {
      KeyIndex(countAggregates, aggregates, aggregateInv, aggregateToTypeId)
    }

    function Log(): (rows: seq<LogRow>)
      reads `capturedEvents, `eventTypesInv, `countAggregates, `aggregates, `aggregateInv, `aggregateToTypeId
      ensures |rows| == |capturedEvents|
    {
      View(capturedEvents, Keys(), eventTypesInv)
    }

    function Tables(): LogTables
      reads `capturedEvents, `eventTypesInv, `aggregateTypesInv
      reads `countAggregates, `aggregates, `aggregateInv, `aggregateToTypeId
    {
      LogTables(capturedEvents, Keys(), aggregateTypesInv, eventTypesInv)
    }

    ghost predicate Linked()
      reads `subscriptions, `subscriptionById, `nextSubscriptionId
    {
      LinkedMaps(subscriptions, subscriptionById, nextSubscriptionId)
    }

    ghost function Rows(): map<string, SubscriptionRow>
      reads `subscriptions, subscriptions.Values
    {
      map n | n in subscriptions :: subscriptions[n].Row()
    }

    // The filter that a subscription's stored columns and joined types make up.
    function FilterOf(sub: SubscriptionRow): Filter
      reads `subscriptionEventTypes
    {
      Filter(sub.aggregateTypeId, sub.eventTypeId, sub.aggregateKey, JoinedTo(subscriptionEventTypes, sub.id))
    }

    constructor ()
      ensures EventTypeTable() == EMPTY_TABLE && AggregateTypeTable() == EMPTY_TABLE && Keys() == EMPTY_INDEX
      ensures capturedEvents == [] && capturedSnapshots == []
      ensures Linked() && Rows() == map[] && subscriptionEventTypes == map[]
      ensures subscriptions == map[]
    {
      capturedEvents, capturedSnapshots := [], [];
      aggregateTypes, aggregateTypesInv, eventTypes, eventTypesInv := map[], map[], map[], map[];
      countAggregateType, countEventTypes, countAggregates := 0, 0, 0;
      aggregateToTypeId, aggregates, aggregateInv := map[], map[], map[];
      subscriptions, subscriptionById, subscriptionEventTypes, nextSubscriptionId := map[], map[], map[], 0;
    }

    // ---------------- Types and aggregates ----------------

    method GetEventTypeId(name: string) returns (id: int)
      modifies `eventTypes, `eventTypesInv, `countEventTypes
      ensures (EventTypeTable(), id) == Resolve(old(EventTypeTable()), name)
    {
      if name in eventTypes {
        return eventTypes[name];
      }
      countEventTypes := countEventTypes + 1;
      eventTypes := eventTypes[name := countEventTypes];
      eventTypesInv := eventTypesInv[countEventTypes := name];
      return countEventTypes;
    }

    method GetAggregateTypeId(name: string) returns (id: int)
      modifies `aggregateTypes, `aggregateTypesInv, `countAggregateType
      ensures (AggregateTypeTable(), id) == Resolve(old(AggregateTypeTable()), name)
    {
      if name in aggregateTypes {
        return aggregateTypes[name];
      }
      countAggregateType := countAggregateType + 1;
      aggregateTypes := aggregateTypes[name := countAggregateType];
      aggregateTypesInv := aggregateTypesInv[countAggregateType := name];
      return countAggregateType;
    }

    method NewAggregate(aggregateTypeId: int) returns (id: int)
      modifies `countAggregates, `aggregateInv, `aggregateToTypeId
      ensures (Keys(), Id(id, true)) == Do(old(Keys()), Create(aggregateTypeId))
    {
      countAggregates := countAggregates + 1;
      aggregateInv := aggregateInv[countAggregates := None];
      aggregateToTypeId := aggregateToTypeId[countAggregates := aggregateTypeId];
      return countAggregates;
    }

    method NewAggregateWithKey(aggregateTypeId: int, naturalKey: string) returns (r: KeyResult)
      modifies `countAggregates, `aggregates, `aggregateInv, `aggregateToTypeId
      ensures (Keys(), r) == Do(old(Keys()), CreateWithKey(aggregateTypeId, naturalKey))
    {
      if |naturalKey| > MAX_KEY_LENGTH {
        return TooLong;
      }
      if naturalKey in aggregates {
        return Duplicate;
      }
      countAggregates := countAggregates + 1;
      aggregates := aggregates[naturalKey := countAggregates];
      aggregateToTypeId := aggregateToTypeId[countAggregates := aggregateTypeId];
      aggregateInv := aggregateInv[countAggregates := Some(naturalKey)];
      return Id(countAggregates, true);
    }

    method ChangeAggregateNaturalKey(aggregateId: int, naturalKey: string) returns (r: KeyResult)
      modifies `aggregates, `aggregateInv
      ensures (Keys(), r) == Do(old(Keys()), ChangeKey(aggregateId, naturalKey))
      ensures r == Changed ==>
                && aggregateInv == old(aggregateInv)[aggregateId := Some(naturalKey)]
                && naturalKey in aggregates && aggregates[naturalKey] == aggregateId
                && aggregates.Keys == old(aggregates).Keys - {old(aggregateInv[aggregateId]).value} + {naturalKey}
                && forall key :: key in aggregates && key != naturalKey ==> aggregates[key] == old(aggregates)[key]
      ensures r != Changed ==> Keys() == old(Keys())
    {
      if |naturalKey| > MAX_KEY_LENGTH {
        return TooLong;
      }
      if aggregateId !in aggregateInv {
        return NoAggregate;
      }
      var aggregateKey := aggregateInv[aggregateId];
      if aggregateKey.None? {
        return NilKey;
      }
      aggregates := aggregates - {aggregateKey.value};
      aggregateInv := aggregateInv - {aggregateId};
      aggregates := aggregates[naturalKey := aggregateId];
      aggregateInv := aggregateInv[aggregateId := Some(naturalKey)];
      assert aggregateInv == old(aggregateInv)[aggregateId := Some(naturalKey)];
      return Changed;
    }

    /** Finds exactly the aggregates that exist with the given type, and their current key. */
    method GetAggregateById(aggregateTypeId: int, aggregateId: int) returns (r: Result<Option<string>, KeyResult>)
      ensures r.Ok? <==> aggregateId in aggregateInv && TypeOf(Keys(), aggregateId) == aggregateTypeId
      ensures r.Ok? ==> r.value == aggregateInv[aggregateId]
      ensures r == Err(NoAggregate) <==> aggregateId !in aggregateInv
    {
      if aggregateId !in aggregateInv {
        return Err(NoAggregate);
      }
      if TypeOf(Keys(), aggregateId) != aggregateTypeId {
        return Err(TypeMismatch);
      }
      return Ok(aggregateInv[aggregateId]);
    }

    method GetOrCreateAggregateByKey(aggregateTypeId: int, naturalKey: string) returns (r: KeyResult)
      modifies `countAggregates, `aggregates, `aggregateInv, `aggregateToTypeId
      ensures (Keys(), r) == Do(old(Keys()), GetOrCreate(aggregateTypeId, naturalKey))
    {
      if |naturalKey| > MAX_KEY_LENGTH {
        return TooLong;
      }
      if naturalKey in aggregates {
        var aggregateId := aggregates[naturalKey];
        if TypeOf(Keys(), aggregateId) != aggregateTypeId {
          return TypeMismatch;
        }
        return Id(aggregateId, false);
      }
      countAggregates := countAggregates + 1;
      aggregates := aggregates[naturalKey := countAggregates];
      aggregateToTypeId := aggregateToTypeId[countAggregates := aggregateTypeId];
      aggregateInv := aggregateInv[countAggregates := Some(naturalKey)];
      return Id(countAggregates, true);
    }

    /** In a consistent index, finds exactly the aggregate that has this key and this type. */
    method GetAggregateByKey(aggregateTypeId: int, naturalKey: string) returns (r: Result<int, KeyResult>)
      ensures Consistent(Keys()) ==>
                forall id :: r == Ok(id) <==>
                  id in aggregateInv && aggregateInv[id] == Some(naturalKey) && TypeOf(Keys(), id) == aggregateTypeId
      ensures r == Err(NoAggregate) <==> naturalKey !in aggregates
      ensures r.Ok? <==> naturalKey in aggregates && TypeOf(Keys(), aggregates[naturalKey]) == aggregateTypeId
      ensures r.Ok? ==> r.value == aggregates[naturalKey]
    {
      if naturalKey !in aggregates {
        return Err(NoAggregate);
      }
      var aggregateId := aggregates[naturalKey];
      if TypeOf(Keys(), aggregateId) != aggregateTypeId {
        return Err(TypeMismatch);
      }
      return Ok(aggregateId);
    }

    // ---------------- Events and snapshots ----------------

    method GetSnapshotForAggregate(aggregateId: int) returns (r: Option<Snapshot>)
      ensures r == LastCaptured(capturedSnapshots, aggregateId)
    {
      var i := |capturedSnapshots| - 1;
      assert capturedSnapshots[..i + 1] == capturedSnapshots;
      while i >= 0
        invariant -1 <= i < |capturedSnapshots|
        invariant LastCaptured(capturedSnapshots[..i + 1], aggregateId) == LastCaptured(capturedSnapshots, aggregateId)
      {
        assert capturedSnapshots[..i + 1][..i] == capturedSnapshots[..i];
        if capturedSnapshots[i].aggregateId == aggregateId {
          return Some(capturedSnapshots[i]);
        }
        i := i - 1;
      }
      return None;
    }

    method GetEventsForAggregate(aggregateId: int, afterSequence: int) returns (aggregateEvents: seq<SerializedEvent>)
      ensures aggregateEvents == Above(ReadBack(capturedEvents, eventTypesInv), aggregateId, afterSequence)
    {
      aggregateEvents := [];
      ghost var all := ReadBack(capturedEvents, eventTypesInv);
      for i := 0 to |capturedEvents|
        invariant aggregateEvents == Above(all[..i], aggregateId, afterSequence)
      {
        var storageEvent := capturedEvents[i];
        assert all[..i + 1][..i] == all[..i];
        if storageEvent.aggregateId == aggregateId && storageEvent.sequence > afterSequence {
          var event := SerializedEvent(0, aggregateId, NameOf(eventTypesInv, storageEvent.eventTypeId),
                                       storageEvent.state, storageEvent.sequence, storageEvent.reference,
                                       storageEvent.eventTime);
          aggregateEvents := aggregateEvents + [event];
        }
      }
      assert all[..|capturedEvents|] == all;
    }

    method WriteState(events: seq<StorageEvent>, snapshots: seq<Snapshot>)
      modifies `capturedEvents, `capturedSnapshots
      ensures capturedEvents == old(capturedEvents) + events
      ensures capturedSnapshots == old(capturedSnapshots) + snapshots
    {
      capturedEvents := capturedEvents + events;
      capturedSnapshots := capturedSnapshots + snapshots;
    }

    // ---------------- Subscriptions ----------------

    method UpsertSubscription(name: string, aggregateTypeId: Option<int>, eventTypeId: Option<int>,
                              aggregateKey: Option<string>, start: Start)
      returns (id: int)
      requires Linked()
      modifies `subscriptions, `subscriptionById, `nextSubscriptionId, subscriptions.Values
      ensures Linked() && name in subscriptions && subscriptions[name].id == id
      ensures fresh(subscriptions.Values - old(subscriptions.Values))
      ensures name in old(subscriptions) ==>
                Rows() == old(Rows())[name := Redefined(old(Rows())[name], aggregateTypeId, eventTypeId, aggregateKey,
                                                        start)]
      ensures name !in old(subscriptions) ==>
                && id == old(nextSubscriptionId) + 1
                && Rows() == old(Rows())[name := NewRow(id, name, aggregateTypeId, eventTypeId, aggregateKey, start)]
      ensures var row := Rows()[name];
              && row.id == id && row.name == name && row.start == start
              && row.aggregateTypeId == aggregateTypeId && row.eventTypeId == eventTypeId
              && row.aggregateKey == aggregateKey
      ensures name in old(Rows()) ==>
                var row, older := Rows()[name], old(Rows())[name];
                row.id == older.id && row.lastEventId == older.lastEventId && row.lease == older.lease
      ensures name !in old(Rows()) ==>
                Rows()[name].lastEventId == 0 && Rows()[name].lease == LeaseRecord(true, None, None)
      ensures forall n :: n in old(Rows()) && n != name ==> n in Rows() && Rows()[n] == old(Rows())[n]
    {
      if name in subscriptions {
        RedefineSubscription(name, aggregateTypeId, eventTypeId, aggregateKey, start);
        return subscriptions[name].id;
      }
      var sub := AddSubscription(name, aggregateTypeId, eventTypeId, aggregateKey, start);
      return sub.id;
    }

    // The half of the upsert that updates: the cursor and the lease stay.
    method RedefineSubscription(name: string, aggregateTypeId: Option<int>, eventTypeId: Option<int>,
                                aggregateKey: Option<string>, start: Start)
      requires Linked() && name in subscriptions
      modifies subscriptions.Values
      ensures Rows()
              == old(Rows())[name := Redefined(old(Rows())[name], aggregateTypeId, eventTypeId, aggregateKey, start)]
    {
      var s := subscriptions[name];
      s.aggregateTypeId := aggregateTypeId;
      s.eventTypeId := eventTypeId;
      s.aggregateKey := aggregateKey;
      s.start := start;
    }

    // The half of the upsert that inserts.
    method AddSubscription(name: string, aggregateTypeId: Option<int>, eventTypeId: Option<int>,
                           aggregateKey: Option<string>, start: Start)
      returns (sub: Subscription)
      requires Linked() && name !in subscriptions
      modifies `subscriptions, `subscriptionById, `nextSubscriptionId
      ensures Linked() && nextSubscriptionId == old(nextSubscriptionId) + 1
      ensures fresh(sub) && subscriptions == old(subscriptions)[name := sub]
      ensures sub.Row() == NewRow(nextSubscriptionId, name, aggregateTypeId, eventTypeId, aggregateKey, start)
    {
      nextSubscriptionId := nextSubscriptionId + 1;
      sub := new Subscription(nextSubscriptionId, name, aggregateTypeId, eventTypeId, aggregateKey, start);
      subscriptions := subscriptions[name := sub];
      subscriptionById := subscriptionById[sub.id := sub];
    }

    /** Adds to the joined types; no operation takes one away. */
    method AddSubscriptionEventType(subscriptionId: int, eventTypeId: int)
      modifies `subscriptionEventTypes
      ensures var joined := old(subscriptionEventTypes);
              subscriptionEventTypes == joined[subscriptionId := JoinedTo(joined, subscriptionId) + {eventTypeId}]
    {
      if subscriptionId !in subscriptionEventTypes {
        subscriptionEventTypes := subscriptionEventTypes[subscriptionId := {}];
      }
      var joined := subscriptionEventTypes[subscriptionId] + {eventTypeId};
      subscriptionEventTypes := subscriptionEventTypes[subscriptionId := joined];
    }

    method GetSubscriptionByName(name: string) returns (r: Option<SubscriptionRow>)
      ensures r == if name in Rows() then Some(Rows()[name]) else None
    {
      if name !in subscriptions {
        return None;
      }
      return Some(subscriptions[name].Row());
    }

    method SetSubscriptionActive(id: int, on: bool) returns (found: bool)
      requires Linked()
      modifies subscriptions.Values
      ensures found <==> id in subscriptionById
      ensures !found ==> Rows() == old(Rows())
      ensures found ==>
                var name := subscriptionById[id].name;
                Rows() == old(Rows())[name := old(Rows())[name].(lease := old(Rows())[name].lease.(active := on))]
    {
      if id !in subscriptionById {
        return false;
      }
      var s := subscriptionById[id];
      s.active := on;
      return true;
    }

    method ClaimSubscription(name: string, owner: string, now: int, lease: int) returns (claimed: bool)
      requires Linked()
      modifies subscriptions.Values
      ensures claimed <==> name in old(Rows()) && MayClaim(old(Rows())[name].lease, now)
      ensures Rows() == if name in old(Rows())
                        then WithLease(old(Rows()), name, AfterClaim(old(Rows())[name].lease, owner, now, lease))
                        else old(Rows())
    {
      if name !in subscriptions || !subscriptions[name].active {
        return false;
      }
      var s := subscriptions[name];
      if s.leaseOwner.None? || s.leaseExpiresAt.None? || s.leaseExpiresAt.value < now {
        s.leaseOwner := Some(owner);
        s.leaseExpiresAt := Some(now + lease);
        return true;
      }
      return false;
    }

    method RenewSubscription(name: string, owner: string, now: int, lease: int) returns (renewed: bool)
      requires Linked()
      modifies subscriptions.Values
      ensures renewed <==> name in old(Rows()) && MayRenew(old(Rows())[name].lease, owner)
      ensures Rows() == if name in old(Rows())
                        then WithLease(old(Rows()), name, AfterRenew(old(Rows())[name].lease, owner, now, lease))
                        else old(Rows())
    {
      if name !in subscriptions || !subscriptions[name].active || subscriptions[name].leaseOwner != Some(owner) {
        return false;
      }
      var s := subscriptions[name];
      s.leaseExpiresAt := Some(now + lease);
      return true;
    }

    method ReleaseSubscription(name: string, owner: string)
      requires Linked()
      modifies subscriptions.Values
      ensures Rows() == if name in old(Rows())
                        then WithLease(old(Rows()), name, AfterRelease(old(Rows())[name].lease, owner))
                        else old(Rows())
    {
      if name !in subscriptions || subscriptions[name].leaseOwner != Some(owner) {
        return;
      }
      var s := subscriptions[name];
      s.leaseOwner := None;
      s.leaseExpiresAt := None;
    }

    // The chain of tests that an event has to pass.
    method Passes(sub: SubscriptionRow, haveMulti: bool, idx: nat) returns (ok: bool)
      requires idx < |capturedEvents|
      requires haveMulti <==> sub.id in subscriptionEventTypes && subscriptionEventTypes[sub.id] != {}
      ensures ok <==> Matches(FilterOf(sub), Log()[idx])
    {
      var e := capturedEvents[idx];
      assert Log()[idx] == RowOf(e, Keys(), eventTypesInv);
      if sub.aggregateTypeId.Some? {
        if TypeOf(Keys(), e.aggregateId) != sub.aggregateTypeId.value {
          return false;
        }
      }
      if sub.aggregateKey.Some? {
        var key := if e.aggregateId in aggregateInv then aggregateInv[e.aggregateId] else None;
        if key.None? || key.value != sub.aggregateKey.value {
          return false;
        }
      }
      if haveMulti {
        if e.eventTypeId !in subscriptionEventTypes[sub.id] {
          return false;
        }
      } else if sub.eventTypeId.Some? {
        if e.eventTypeId != sub.eventTypeId.value {
          return false;
        }
      }
      return true;
    }

    method ReadRow(idx: nat) returns (r: SerializedEvent)
      requires idx < |capturedEvents|
      ensures r == Rendered(Log()[idx], idx + 1)
    {
      var e := capturedEvents[idx];
      assert Log()[idx] == RowOf(e, Keys(), eventTypesInv);
      return SerializedEvent(idx + 1, e.aggregateId, NameOf(eventTypesInv, e.eventTypeId), e.state, e.sequence,
                             e.reference, e.eventTime);
    }

    /** The scan stops after the match that fills the batch, so a limit of 0 still returns one event. */
    method GetEventsForSubscription(sub: SubscriptionRow, limit: nat) returns (results: seq<SerializedEvent>)
      ensures results == Render(Log(), Fetch(Log(), FilterOf(sub), sub.lastEventId, Max(limit, 1)))
      ensures forall i :: 0 <= i < |results| ==>
                sub.lastEventId < results[i].eventId && CarriesStored(capturedEvents, eventTypesInv, results[i])
    {
      FetchCarries(Tables(), FilterOf(sub), sub.lastEventId, Max(limit, 1));
      results := [];
      var haveMulti := sub.id in subscriptionEventTypes && |subscriptionEventTypes[sub.id]| > 0;
      ghost var rows, f := Log(), FilterOf(sub);
      for idx := 0 to |capturedEvents|
        invariant ScannedTo(rows, f, sub.lastEventId, idx, results) && |results| < Max(limit, 1)
      {
        ScanOneMore(rows, f, sub.lastEventId, idx, results, limit);
        if idx + 1 <= sub.lastEventId {
          continue;
        }
        var ok := Passes(sub, haveMulti, idx);
        if !ok {
          continue;
        }
        var event := ReadRow(idx);
        results := results + [event];
        if |results| >= limit {
          return;
        }
      }
      ScanEnds(rows, f, sub.lastEventId, results, limit);
    }

    method AdvanceSubscriptionCursor(id: int, lastEventId: int) returns (found: bool)
      requires Linked()
      modifies subscriptions.Values
      ensures found <==> id in subscriptionById
      ensures !found ==> Rows() == old(Rows())
      ensures found ==>
                var name := subscriptionById[id].name;
                Rows() == old(Rows())[name := old(Rows())[name].(lastEventId := lastEventId)]
    {
      if id !in subscriptionById {
        return false;
      }
      var s := subscriptionById[id];
      s.lastEventId := lastEventId;
      return true;
    }

    method GetMaxEventId() returns (id: int)
      ensures id == |Log()|
    {
      return |capturedEvents|;
    }

    method GetFirstEventIdFromTimestamp(ts: int) returns (id: int)
      ensures id == FirstFrom(Log(), ts)
    {
      for idx := 0 to |capturedEvents|
        invariant FirstFrom(Log(), ts) == FirstFrom(Log(), ts, idx)
      {
        var e := capturedEvents[idx];
        assert Log()[idx].eventTime == e.eventTime;
        if e.eventTime >= ts {
          return idx + 1;
        }
      }
      return 0;
    }
  }

  // The scan has read the rows up to `hi`.
  predicate ScannedTo(rows: seq<LogRow>, f: Filter, cursor: int, hi: nat, results: seq<SerializedEvent>) {
    hi <= |rows| && results == Render(rows, Select(rows, f, cursor, hi))
  }

  lemma ScanOneMore(rows: seq<LogRow>, f: Filter, cursor: int, idx: nat, results: seq<SerializedEvent>, limit: nat)
    requires idx < |rows| && ScannedTo(rows, f, cursor, idx, results) && |results| < Max(limit, 1)
    ensures var more := results + [Rendered(rows[idx], idx + 1)];
            if cursor <= idx && Matches(f, rows[idx]) then
              && ScannedTo(rows, f, cursor, idx + 1, more)
              && (limit <= |more| ==> more == Render(rows, Fetch(rows, f, cursor, Max(limit, 1))))
            else ScannedTo(rows, f, cursor, idx + 1, results)
  {
    if cursor <= idx && Matches(f, rows[idx]) {
      var ids := Select(rows, f, cursor, idx);
      RenderOneMore(rows, ids, idx + 1);
      if limit <= |ids| + 1 {
        FullBatch(rows, f, cursor, idx + 1, Max(limit, 1));
      }
    } else {
      assert Select(rows, f, cursor, idx + 1) == Select(rows, f, cursor, idx);
    }
  }

  lemma ScanEnds(rows: seq<LogRow>, f: Filter, cursor: int, results: seq<SerializedEvent>, limit: nat)
    requires ScannedTo(rows, f, cursor, |rows|, results) && |results| < Max(limit, 1)
    ensures results == Render(rows, Fetch(rows, f, cursor, Max(limit, 1)))
  {
  }

  lemma RenderOneMore(rows: seq<LogRow>, ids: seq<int>, id: int)
    requires 1 <= id <= |rows|
    ensures Render(rows, ids + [id]) == Render(rows, ids) + [Rendered(rows[id - 1], id)]
  {
  }

  /** The stored events with their type names, as a load returns them: without a log id. */
  function ReadBack(events: seq<StorageEvent>, names: map<int, string>): (read: seq<SerializedEvent>)
    ensures |read| == |events|
    ensures forall i :: 0 <= i < |events| ==> read[i] == ReadOne(events[i], names)
  {
    seq(|events|, i requires 0 <= i < |events| => ReadOne(events[i], names))
  }

  function ReadOne(e: StorageEvent, names: map<int, string>): SerializedEvent {
    SerializedEvent(0, e.aggregateId, NameOf(names, e.eventTypeId), e.state, e.sequence, e.reference, e.eventTime)
  }
}
