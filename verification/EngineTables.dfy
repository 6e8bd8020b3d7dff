/** The event_log view over an engine's tables, and the SQL query over that view. */
module EngineTables {
  import opened Wrappers
  import opened Records
  import opened EventLog
  import opened NaturalKeys

  function NameOf(names: map<int, string>, id: int): string {
    if id in names then names[id] else ""
  }

  /** An event seen through the memory engine's maps; absent entries read as zero values. */
  function RowOf(e: StorageEvent, keys: KeyIndex, names: map<int, string>): LogRow {
    LogRow(e.aggregateId,
           if e.aggregateId in keys.keyOf then keys.keyOf[e.aggregateId] else None,
           e.sequence,
           TypeOf(keys, e.aggregateId),
           e.eventTypeId,
           NameOf(names, e.eventTypeId),
           e.eventTime, e.state, e.reference)
  }

  /** The tables behind the log. */
  datatype LogTables = LogTables(
    events: seq<StorageEvent>,
    keys: KeyIndex,
    aggregateTypes: map<int, string>,
    eventTypes: map<int, string>)

  function LogOf(t: LogTables): seq<LogRow> {
    View(t.events, t.keys, t.eventTypes)
  }

  function View(events: seq<StorageEvent>, keys: KeyIndex, names: map<int, string>): (rows: seq<LogRow>)
    ensures |rows| == |events|
    ensures forall i :: 0 <= i < |events| ==> rows[i] == RowOf(events[i], keys, names)
  {
    seq(|events|, i requires 0 <= i < |events| => RowOf(events[i], keys, names))
  }

  // Every event's aggregate and type exist, as the foreign keys of the SQL tables demand.
  predicate References(events: seq<StorageEvent>, keys: KeyIndex, names: map<int, string>) {
    forall i :: 0 <= i < |events| ==>
      events[i].aggregateId in keys.typeOf && events[i].aggregateId in keys.keyOf && events[i].eventTypeId in names
  }

  // The foreign keys hold and the natural keys are consistent.
  ghost predicate Sound(t: LogTables) {
    Consistent(t.keys) && References(t.events, t.keys, t.eventTypes)
  }

  predicate NamesKept(older: map<int, string>, newer: map<int, string>) {
    forall id :: id in older ==> id in newer && newer[id] == older[id]
  }

  /** New events, aggregates and types leave the view of the old events as it was. */
  lemma ViewGrows(events: seq<StorageEvent>, more: seq<StorageEvent>, keys: KeyIndex, keys': KeyIndex,
                  names: map<int, string>, names': map<int, string>)
    requires References(events, keys, names) && Extends(keys, keys') && NamesKept(names, names')
    ensures View(events, keys, names) <= View(events + more, keys', names')
  {
    var old_, new_ := View(events, keys, names), View(events + more, keys', names');
    forall i | 0 <= i < |events|
      ensures old_[i] == new_[i]
    {
      assert (events + more)[i] == events[i];
      assert events[i].aggregateId in keys.typeOf;
    }
  }

  /** New type names change nothing that the log shows. */
  lemma NewNamesKeepTheLog(t: LogTables, t': LogTables)
    requires Sound(t) && t'.events == t.events && t'.keys == t.keys && NamesKept(t.eventTypes, t'.eventTypes)
    ensures Sound(t') && LogOf(t') == LogOf(t)
  {
    assert t.events + [] == t.events;
    ViewGrows(t.events, [], t.keys, t.keys, t.eventTypes, t'.eventTypes);
  }

  // ---------------- What a reader gets ----------------

  function Rendered(row: LogRow, id: int): SerializedEvent {
    SerializedEvent(id, row.aggregateId, row.eventType, row.state, row.sequence, row.reference, row.eventTime)
  }

  // Stands for a row that is not in the log; no selection has one.
  const NO_ROW := LogRow(0, None, 0, 0, 0, "", 0, "", "")

  function RenderedAt(rows: seq<LogRow>, id: int): SerializedEvent {
    Rendered(if 1 <= id <= |rows| then rows[id - 1] else NO_ROW, id)
  }

  /** The events of a selection, as a reader gets them. */
  function Render(rows: seq<LogRow>, ids: seq<int>): (events: seq<SerializedEvent>)
    ensures |events| == |ids|
    ensures forall i :: 0 <= i < |ids| ==> events[i] == RenderedAt(rows, ids[i])
  {
    seq(|ids|, i requires 0 <= i < |ids| => RenderedAt(rows, ids[i]))
  }

  // What a reader gets is, column by column, what is stored under the event's id.
  predicate CarriesStored(events: seq<StorageEvent>, names: map<int, string>, r: SerializedEvent) {
    && 1 <= r.eventId <= |events|
    && var e := events[r.eventId - 1];
    && r.aggregateId == e.aggregateId && r.sequence == e.sequence && r.state == e.state && r.reference == e.reference
    && r.eventTime == e.eventTime
    && (if e.eventTypeId in names then r.eventType == names[e.eventTypeId] else r.eventType == "")
  }

  lemma RenderCarries(t: LogTables, ids: seq<int>)
    requires forall i :: 0 <= i < |ids| ==> 1 <= ids[i] <= |t.events|
    ensures forall i :: 0 <= i < |ids| ==> CarriesStored(t.events, t.eventTypes, Render(LogOf(t), ids)[i])
  {
    forall i | 0 <= i < |ids|
      ensures CarriesStored(t.events, t.eventTypes, Render(LogOf(t), ids)[i])
    {
      assert LogOf(t)[ids[i] - 1] == RowOf(t.events[ids[i] - 1], t.keys, t.eventTypes);
    }
  }

  /** Every event of a fetch carries what is stored. */
  lemma FetchCarries(t: LogTables, f: Filter, cursor: int, limit: int)
    requires 0 < limit
    ensures var read := Render(LogOf(t), Fetch(LogOf(t), f, cursor, limit));
            forall i :: 0 <= i < |read| ==> cursor < read[i].eventId && CarriesStored(t.events, t.eventTypes, read[i])
  {
    var ids := Fetch(LogOf(t), f, cursor, limit);
    SelectExact(LogOf(t), f, cursor, |LogOf(t)|);
    forall i | 0 <= i < |ids|
      ensures cursor < ids[i] && 1 <= ids[i] <= |t.events|
    {
      assert ids[i] in Select(LogOf(t), f, cursor, |LogOf(t)|);
    }
    RenderCarries(t, ids);
  }

  // ---------------- The query, as SQL states it ----------------

  // A row of the event_log view: the inner joins find an aggregate, its type and the event's type.
  predicate InView(t: LogTables, id: int) {
    && 1 <= id <= |t.events|
    && var e := t.events[id - 1];
       e.aggregateId in t.keys.typeOf && t.keys.typeOf[e.aggregateId] in t.aggregateTypes
       && e.eventTypeId in t.eventTypes
  }

  // The WHERE clause. A comparison with NULL is not true.
  predicate Where(e: StorageEvent, keys: KeyIndex, f: Filter, cursor: int, id: int)
    requires e.aggregateId in keys.typeOf
  {
    && cursor < id
    && (f.aggregateTypeId == None || f.aggregateTypeId == Some(keys.typeOf[e.aggregateId]))
    && (f.aggregateKey == None ||
        (e.aggregateId in keys.keyOf && keys.keyOf[e.aggregateId].Some? && f.aggregateKey == keys.keyOf[e.aggregateId]))
    && (if f.eventTypes != {} then e.eventTypeId in f.eventTypes
        else f.eventTypeId == None || f.eventTypeId == Some(e.eventTypeId))
  }

  predicate Selected(t: LogTables, f: Filter, cursor: int, id: int) {
    InView(t, id) && Where(t.events[id - 1], t.keys, f, cursor, id)
  }

  predicate LargerThanAll(x: int, part: seq<int>) {
    forall i :: 0 <= i < |part| ==> part[i] < x
  }

  /** ORDER BY id LIMIT: increasing selected ids, and whatever is left out is larger and beyond the limit. */
  ghost predicate IsAnswer(t: LogTables, f: Filter, cursor: int, limit: int, answer: seq<int>) {
    && Increasing(answer)
    && |answer| <= limit
    && (forall k :: 0 <= k < |answer| ==> Selected(t, f, cursor, answer[k]))
    && (forall id :: Selected(t, f, cursor, id) && id !in answer ==>
          |answer| == limit && LargerThanAll(id, answer))
  }

  // The columns of one joined row, as they are scanned into an event. The reference is not among them.
  function Scanned(t: LogTables, id: int): SerializedEvent
    requires InView(t, id)
  {
    var e := t.events[id - 1];
    SerializedEvent(id, e.aggregateId, t.eventTypes[e.eventTypeId], e.state, e.sequence, "", e.eventTime)
  }

  function EventIds(results: seq<SerializedEvent>): (ids: seq<int>)
    ensures |ids| == |results| && forall i :: 0 <= i < |ids| ==> ids[i] == results[i].eventId
  {
    seq(|results|, i requires 0 <= i < |results| => results[i].eventId)
  }

  /** What the query returns: the columns of the answer's rows. */
  ghost predicate IsResult(t: LogTables, f: Filter, cursor: int, limit: int, results: seq<SerializedEvent>) {
    && IsAnswer(t, f, cursor, limit, EventIds(results))
    && forall k :: 0 <= k < |results| ==> IsScanned(t, results[k])
  }

  predicate IsScanned(t: LogTables, event: SerializedEvent) {
    InView(t, event.eventId) && event == Scanned(t, event.eventId)
  }

  // With the references in place the joins drop nothing.
  predicate Complete(t: LogTables) {
    forall id :: 1 <= id <= |t.events| ==> InView(t, id)
  }

  lemma SelectedIsMatch(t: LogTables, f: Filter, cursor: int, id: int)
    requires Complete(t)
    ensures Selected(t, f, cursor, id)
            <==> id in Select(View(t.events, t.keys, t.eventTypes), f, cursor, |t.events|)
  {
    var rows := View(t.events, t.keys, t.eventTypes);
    SelectExact(rows, f, cursor, |t.events|);
    if 1 <= id <= |t.events| {
      assert InView(t, id);
      assert rows[id - 1] == RowOf(t.events[id - 1], t.keys, t.eventTypes);
    }
  }

  // Whatever the part leaves out is larger than all it holds.
  ghost predicate LeavesOutLarger(all: seq<int>, part: seq<int>) {
    forall x :: x in all && x !in part ==> LargerThanAll(x, part)
  }

  lemma NotInPart(all: seq<int>, part: seq<int>, k: nat)
    requires Increasing(all) && Increasing(part) && k < |part| && k < |all| && all[k] < part[k]
    requires forall i :: 0 <= i < k ==> part[i] == all[i]
    ensures all[k] in all && all[k] !in part
  {
    forall m | 0 <= m < |part|
      ensures part[m] != all[k]
    {
      assert m < k ==> all[m] < all[k];
      assert k < m ==> part[k] < part[m];
    }
  }

  lemma NotBehind(all: seq<int>, part: seq<int>, k: nat)
    requires Increasing(all) && Increasing(part) && k < |part| && k < |all| && LeavesOutLarger(all, part)
    requires forall i :: 0 <= i < k ==> part[i] == all[i]
    ensures part[k] <= all[k]
  {
    if all[k] < part[k] {
      NotInPart(all, part, k);
    }
  }

  // The next member of the part is in the whole, but not among those that came before.
  lemma NotAhead(all: seq<int>, part: seq<int>, k: nat)
    requires Increasing(all) && Increasing(part) && k < |part| && k <= |all| && part[k] in all
    requires forall i :: 0 <= i < k ==> part[i] == all[i]
    ensures k < |all| && all[k] <= part[k]
  {
    assert forall i :: 0 <= i < k ==> part[i] == all[i] && part[i] < part[k];
    var j :| 0 <= j < |all| && all[j] == part[k];
    assert k <= j;
  }

  // An increasing part that leaves out only larger members agrees with the whole from the front.
  lemma {:induction false} AgreesUpTo(all: seq<int>, part: seq<int>, k: nat)
    requires Increasing(all) && Increasing(part) && k <= |part|
    requires LeavesOutLarger(all, part) && forall i :: 0 <= i < |part| ==> part[i] in all
    ensures k <= |all| && forall i :: 0 <= i < k ==> part[i] == all[i]
  {
    if 0 < k {
      AgreesUpTo(all, part, k - 1);
      NotAhead(all, part, k - 1);
      NotBehind(all, part, k - 1);
    }
  }

  // What LIMIT keeps of an ordered list, without saying how it is computed.
  ghost predicate FirstOf(all: seq<int>, limit: int, part: seq<int>) {
    && Increasing(part)
    && |part| <= limit
    && (forall i :: 0 <= i < |part| ==> part[i] in all)
    && (forall x :: x in all && x !in part ==> |part| == limit && LargerThanAll(x, part))
  }

  lemma FirstOfIsTake(all: seq<int>, limit: int, part: seq<int>)
    requires Increasing(all) && 0 < limit && FirstOf(all, limit, part)
    ensures part == Take(all, limit)
  {
    AgreesUpTo(all, part, |part|);
    if |part| < |all| {
      forall m | 0 <= m < |part|
        ensures part[m] != all[|part|]
      {
      }
      assert all[|part|] in all;
    }
  }

  lemma TakeIsFirstOf(all: seq<int>, limit: int)
    requires Increasing(all) && 0 < limit
    ensures FirstOf(all, limit, Take(all, limit))
  {
    var part := Take(all, limit);
    forall x | x in all && x !in part
      ensures |part| == limit && LargerThanAll(x, part)
    {
      var j :| 0 <= j < |all| && all[j] == x;
      assert |part| <= j by {
        assert forall i :: 0 <= i < |part| ==> part[i] != x;
      }
    }
  }

  /** The memory engine's scan reads the one answer that the SQL query has, for every positive limit. */
  lemma ScanIsTheAnswer(t: LogTables, f: Filter, cursor: int, limit: int, answer: seq<int>)
    requires Complete(t) && 0 < limit
    ensures IsAnswer(t, f, cursor, limit, answer)
            <==> answer == Fetch(View(t.events, t.keys, t.eventTypes), f, cursor, limit)
  {
    var rows := View(t.events, t.keys, t.eventTypes);
    var all := Select(rows, f, cursor, |t.events|);
    SelectExact(rows, f, cursor, |t.events|);
    forall id
      ensures Selected(t, f, cursor, id) <==> id in all
    {
      SelectedIsMatch(t, f, cursor, id);
    }
    assert IsAnswer(t, f, cursor, limit, answer) <==> FirstOf(all, limit, answer);
    TakeIsFirstOf(all, limit);
    if FirstOf(all, limit, answer) {
      FirstOfIsTake(all, limit, answer);
    }
  }

  function WithoutReferences(events: seq<SerializedEvent>): (bare: seq<SerializedEvent>)
    ensures |bare| == |events| && forall i :: 0 <= i < |bare| ==> bare[i] == events[i].(reference := "")
  {
    seq(|events|, i requires 0 <= i < |events| => events[i].(reference := ""))
  }

  // A joined row and the row that the memory engine puts together differ in the reference only.
  lemma ScannedIsRendered(t: LogTables, id: int)
    requires InView(t, id)
    ensures Scanned(t, id) == RenderedAt(View(t.events, t.keys, t.eventTypes), id).(reference := "")
  {
    assert View(t.events, t.keys, t.eventTypes)[id - 1] == RowOf(t.events[id - 1], t.keys, t.eventTypes);
  }

  /**
   Row for row and column for column: the SQL query returns what the memory engine's scan returns, in the same order,
   except that the reference is not among its columns.
   */
  lemma QueryReturnsTheScan(t: LogTables, f: Filter, cursor: int, limit: int, results: seq<SerializedEvent>)
    requires Complete(t) && 0 < limit
    ensures var rows := View(t.events, t.keys, t.eventTypes);
            IsResult(t, f, cursor, limit, results)
            <==> results == WithoutReferences(Render(rows, Fetch(rows, f, cursor, limit)))
  {
    var rows := View(t.events, t.keys, t.eventTypes);
    var ids := Fetch(rows, f, cursor, limit);
    ScanIsTheAnswer(t, f, cursor, limit, EventIds(results));
    ScanIsTheAnswer(t, f, cursor, limit, ids);
    var bare := WithoutReferences(Render(rows, ids));
    forall k | 0 <= k < |ids|
      ensures InView(t, ids[k]) && bare[k] == Scanned(t, ids[k])
    {
      assert Selected(t, f, cursor, ids[k]);
      ScannedIsRendered(t, ids[k]);
    }
    if results == bare {
      assert EventIds(results) == ids;
    }
    if IsResult(t, f, cursor, limit, results) {
      forall k | 0 <= k < |ids|
        ensures results[k] == bare[k]
      {
        assert IsScanned(t, results[k]) && EventIds(results)[k] == ids[k];
      }
    }
  }
}
