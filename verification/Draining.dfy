/** Reading a log that has stopped growing, in durable and in ephemeral mode. */
module Draining {
  import opened Wrappers
  import opened Records
  import opened EventLog

  function Flatten(batches: seq<seq<int>>): seq<int> {
    if batches == [] then [] else batches[0] + Flatten(batches[1..])
  }

  function Left(log: seq<LogRow>, cursor: int): nat {
    Max(|log| - cursor, 0)
  }

  /** The batches that a durable runner hands over before it finds nothing more. */
  function Drain(log: seq<LogRow>, f: Filter, cursor: int, limit: int): (batches: seq<seq<int>>)
    requires 0 < limit
    decreases Left(log, cursor)
  {
    FetchCovers(log, f, cursor, limit);
    var batch := Fetch(log, f, cursor, limit);
    if batch == [] then [] else [batch] + Drain(log, f, Last(batch), limit)
  }

  /** Each event exactly once and in log order: the batches put together are the whole selection. */
  lemma {:induction false} DrainIsSelection(log: seq<LogRow>, f: Filter, cursor: int, limit: int)
    requires 0 < limit
    ensures Flatten(Drain(log, f, cursor, limit)) == Select(log, f, cursor, |log|)
    decreases Left(log, cursor)
  {
    FetchCovers(log, f, cursor, limit);
    var batch := Fetch(log, f, cursor, limit);
    if batch != [] {
      DrainIsSelection(log, f, Last(batch), limit);
      SelectSplit(log, f, cursor, Last(batch), |log|);
      var rest := Drain(log, f, Last(batch), limit);
      assert ([batch] + rest)[1..] == rest;
    }
  }

  lemma TimesAtLeast(k: nat, n: nat)
    ensures k == 0 || n <= k * n
  {
    if 1 <= k {
      assert k * n == n + (k - 1) * n;
    }
  }

  lemma CountStep(m: nat, limit: int, rest: nat)
    requires 0 < m && 0 < limit
    requires var left := Max(m - limit, 0); left <= rest * limit < left + limit
    ensures m <= (1 + rest) * limit < m + limit
  {
    assert (1 + rest) * limit == limit + rest * limit;
    TimesAtLeast(rest, limit);
  }

  /** Draining m matching events takes exactly ceil(m / limit) handler calls, the k with m <= k * limit < m + limit. */
  lemma {:induction false} DrainCount(log: seq<LogRow>, f: Filter, cursor: int, limit: int)
    requires 0 < limit
    ensures var m := |Select(log, f, cursor, |log|)|;
            m <= |Drain(log, f, cursor, limit)| * limit < m + limit
    decreases Left(log, cursor)
  {
    FetchCovers(log, f, cursor, limit);
    var batch := Fetch(log, f, cursor, limit);
    if batch != [] {
      DrainCount(log, f, Last(batch), limit);
      SelectSplit(log, f, cursor, Last(batch), |log|);
      CountStep(|Select(log, f, cursor, |log|)|, limit, |Drain(log, f, Last(batch), limit)|);
    }
  }

  /** Every poll that reads something moves on, so a log that stops growing is drained. */
  lemma FetchAdvances(log: seq<LogRow>, f: Filter, cursor: int, limit: int)
    requires 0 < limit && Fetch(log, f, cursor, limit) != []
    ensures Left(log, Last(Fetch(log, f, cursor, limit))) < Left(log, cursor)
  {
    FetchCovers(log, f, cursor, limit);
  }

  // ---------------- Ephemeral mode ----------------

  predicate InLog(log: seq<LogRow>, ids: seq<int>) {
    forall k :: 0 <= k < |ids| ==> 1 <= ids[k] <= |log|
  }

  predicate IsKept(names: Option<set<string>>, row: LogRow) {
    names.None? || row.eventType in names.value
  }

  /** The in-memory filter on type names; None keeps everything. */
  function KeepNames(log: seq<LogRow>, names: Option<set<string>>, ids: seq<int>): (kept: seq<int>)
    requires InLog(log, ids)
  {
    if ids == [] then []
    else
      var init := ids[..|ids| - 1];
      var id := Last(ids);
      KeepNames(log, names, init) + (if IsKept(names, log[id - 1]) then [id] else [])
  }

  lemma {:induction false} KeepNamesConcat(log: seq<LogRow>, names: Option<set<string>>, a: seq<int>, b: seq<int>)
    requires InLog(log, a) && InLog(log, b)
    ensures InLog(log, a + b)
    ensures KeepNames(log, names, a + b) == KeepNames(log, names, a) + KeepNames(log, names, b)
    decreases |b|
  {
    if b == [] {
      assert a + b == a;
    } else {
      var init := b[..|b| - 1];
      assert (a + b)[..|a + b| - 1] == a + init;
      KeepNamesConcat(log, names, a, init);
    }
  }

  lemma SelectInLog(log: seq<LogRow>, f: Filter, lo: int, hi: int)
    requires hi <= |log|
    ensures InLog(log, Select(log, f, lo, hi))
  {
    SelectExact(log, f, lo, hi);
    var ids := Select(log, f, lo, hi);
    assert forall k :: 0 <= k < |ids| ==> ids[k] in ids;
  }

  function FetchInLog(log: seq<LogRow>, f: Filter, cursor: int, limit: int): (batch: seq<int>)
    requires 0 < limit
    ensures batch == Fetch(log, f, cursor, limit)
    ensures InLog(log, batch)
    ensures batch != [] ==> cursor < Last(batch)
  {
    FetchCovers(log, f, cursor, limit);
    SelectInLog(log, f, cursor, |log|);
    Fetch(log, f, cursor, limit)
  }

  /** The batches that an ephemeral runner hands over: fetch, move on, filter by name, skip empty batches. */
  function EphemeralDrain(log: seq<LogRow>, f: Filter, names: Option<set<string>>, cursor: int,
                          limit: int): (batches: seq<seq<int>>)
    requires 0 < limit
    decreases Left(log, cursor)
  {
    var batch := FetchInLog(log, f, cursor, limit);
    if batch == [] then []
    else
      var deliver := KeepNames(log, names, batch);
      (if deliver == [] then [] else [deliver]) + EphemeralDrain(log, f, names, Last(batch), limit)
  }

  lemma {:induction false} EphemeralIsKept(log: seq<LogRow>, f: Filter, names: Option<set<string>>, cursor: int,
                                           limit: int)
    requires 0 < limit
    ensures InLog(log, Select(log, f, cursor, |log|))
    ensures Flatten(EphemeralDrain(log, f, names, cursor, limit))
            == KeepNames(log, names, Select(log, f, cursor, |log|))
    decreases Left(log, cursor)
  {
    SelectInLog(log, f, cursor, |log|);
    FetchCovers(log, f, cursor, limit);
    var batch := FetchInLog(log, f, cursor, limit);
    if batch != [] {
      EphemeralIsKept(log, f, names, Last(batch), limit);
      SelectSplit(log, f, cursor, Last(batch), |log|);
      SelectInLog(log, f, Last(batch), |log|);
      KeepNamesConcat(log, names, batch, Select(log, f, Last(batch), |log|));
      var deliver := KeepNames(log, names, batch);
      var rest := EphemeralDrain(log, f, names, Last(batch), limit);
      assert ([deliver] + rest)[1..] == rest;
      assert [] + rest == rest;
    }
  }

  lemma {:induction false} KeepIsSelect(log: seq<LogRow>, f: Filter, g: Filter, names: Option<set<string>>, lo: int,
                                        hi: int)
    requires hi <= |log|
    requires forall i :: 0 <= i < |log| ==>
               (Matches(f, log[i]) <==> Matches(g, log[i]) && IsKept(names, log[i]))
    ensures InLog(log, Select(log, g, lo, hi))
    ensures KeepNames(log, names, Select(log, g, lo, hi)) == Select(log, f, lo, hi)
    decreases Max(hi, 0)
  {
    SelectInLog(log, g, lo, hi);
    if lo < hi && 0 < hi {
      KeepIsSelect(log, f, g, names, lo, hi - 1);
      var rest := Select(log, g, lo, hi - 1);
      assert Matches(f, log[hi - 1]) <==> Matches(g, log[hi - 1]) && IsKept(names, log[hi - 1]);
      var all := Select(log, g, lo, hi);
      if Matches(g, log[hi - 1]) {
        assert all[..|all| - 1] == rest;
      } else {
        assert all == rest;
      }
    }
  }

  // ---------------- The two modes side by side ----------------

  /** A caller's filter, by name. */
  datatype SubscriptionFilter = SubscriptionFilter(aggregateType: string, eventTypes: seq<string>,
                                                   aggregateKey: Option<string>)

  predicate Resolves(sf: SubscriptionFilter, aggregateIds: map<string, int>, eventIds: map<string, int>) {
    && (sf.aggregateType != "" ==> sf.aggregateType in aggregateIds)
    && forall t :: t in sf.eventTypes ==> t in eventIds
  }

  /** The stored filter of a new durable subscription: several types go to the join table, by id. */
  function DurableFilter(sf: SubscriptionFilter, aggregateIds: map<string, int>, eventIds: map<string, int>): Filter
    requires Resolves(sf, aggregateIds, eventIds)
  {
    Filter(
      if sf.aggregateType == "" then None else Some(aggregateIds[sf.aggregateType]),
      if |sf.eventTypes| == 1 then Some(eventIds[sf.eventTypes[0]]) else None,
      sf.aggregateKey,
      if |sf.eventTypes| <= 1 then {} else set t | t in sf.eventTypes :: eventIds[t])
  }

  // What an ephemeral subscription resolves to ids: a single event type, but not several.
  function ByIds(sf: SubscriptionFilter): SubscriptionFilter {
    if |sf.eventTypes| <= 1 then sf else sf.(eventTypes := [])
  }

  /** The query of an ephemeral subscription: several types are left to the filter by name. */
  function EphemeralFilter(sf: SubscriptionFilter, aggregateIds: map<string, int>, eventIds: map<string, int>): Filter
    requires Resolves(ByIds(sf), aggregateIds, eventIds)
  {
    DurableFilter(ByIds(sf), aggregateIds, eventIds)
  }

  function NamesToKeep(sf: SubscriptionFilter): Option<set<string>> {
    if |sf.eventTypes| <= 1 then None else Some(set t | t in sf.eventTypes)
  }

  // Where a new durable subscription starts.
  function DurableCursor(start: Start, log: seq<LogRow>): Option<int> {
    match PlaceCursor(start, log)
    case Stay => Some(0)
    case MoveTo(cursor) => Some(cursor)
    case Reject => None
  }

  // An ephemeral subscription also takes the empty start kind, as the beginning.
  function EphemeralCursor(start: Start, log: seq<LogRow>): Option<int> {
    if start.kind == Unset then Some(0) else DurableCursor(start, log)
  }

  // The type name and the type id of every row name the same type.
  predicate TypesCoherent(log: seq<LogRow>, eventIds: map<string, int>) {
    forall i, t :: 0 <= i < |log| && t in eventIds ==> (log[i].eventType == t <==> log[i].eventTypeId == eventIds[t])
  }

  lemma FiltersAgree(sf: SubscriptionFilter, aggregateIds: map<string, int>, eventIds: map<string, int>,
                     log: seq<LogRow>, i: nat)
    requires Resolves(sf, aggregateIds, eventIds) && TypesCoherent(log, eventIds) && i < |log|
    ensures var names := NamesToKeep(sf);
            Matches(DurableFilter(sf, aggregateIds, eventIds), log[i])
            <==> Matches(EphemeralFilter(sf, aggregateIds, eventIds), log[i]) && IsKept(names, log[i])
  {
    if 1 < |sf.eventTypes| {
      var ids := set t | t in sf.eventTypes :: eventIds[t];
      assert eventIds[sf.eventTypes[0]] in ids;
      if log[i].eventType in NamesToKeep(sf).value {
        assert log[i].eventTypeId == eventIds[log[i].eventType];
      }
      if log[i].eventTypeId in ids {
        var t :| t in sf.eventTypes && eventIds[t] == log[i].eventTypeId;
        assert log[i].eventType == t;
      }
    }
  }

  lemma DrainsAgree(sf: SubscriptionFilter, aggregateIds: map<string, int>, eventIds: map<string, int>,
                    log: seq<LogRow>, cursor: int, limit: int, ephemeralLimit: int)
    requires Resolves(sf, aggregateIds, eventIds) && TypesCoherent(log, eventIds) && 0 < limit && 0 < ephemeralLimit
    ensures var g := EphemeralFilter(sf, aggregateIds, eventIds);
            Flatten(Drain(log, DurableFilter(sf, aggregateIds, eventIds), cursor, limit))
            == Flatten(EphemeralDrain(log, g, NamesToKeep(sf), cursor, ephemeralLimit))
  {
    var f, g := DurableFilter(sf, aggregateIds, eventIds), EphemeralFilter(sf, aggregateIds, eventIds);
    var names := NamesToKeep(sf);
    forall i | 0 <= i < |log|
      ensures Matches(f, log[i]) <==> Matches(g, log[i]) && IsKept(names, log[i])
    {
      FiltersAgree(sf, aggregateIds, eventIds, log, i);
    }
    KeepIsSelect(log, f, g, names, cursor, |log|);
    DrainIsSelection(log, f, cursor, limit);
    EphemeralIsKept(log, g, names, cursor, ephemeralLimit);
  }

  /**
   On a fixed log, with the same filter and start and any two batch sizes, both modes start at the same cursor and
   hand over the same events in the same order. Only the empty start kind, which the durable mode refuses, differs.
   */
  lemma ModesAgree(sf: SubscriptionFilter, aggregateIds: map<string, int>, eventIds: map<string, int>, log: seq<LogRow>,
                   start: Start, limit: int, ephemeralLimit: int)
    requires Resolves(sf, aggregateIds, eventIds) && TypesCoherent(log, eventIds) && 0 < limit && 0 < ephemeralLimit
    ensures DurableCursor(start, log) == EphemeralCursor(start, log) <==> start.kind != Unset
    ensures DurableCursor(start, log).Some? ==>
              var cursor := DurableCursor(start, log).value;
              var g := EphemeralFilter(sf, aggregateIds, eventIds);
              Flatten(Drain(log, DurableFilter(sf, aggregateIds, eventIds), cursor, limit))
              == Flatten(EphemeralDrain(log, g, NamesToKeep(sf), cursor, ephemeralLimit))
  {
    if DurableCursor(start, log).Some? {
      DrainsAgree(sf, aggregateIds, eventIds, log, DurableCursor(start, log).value, limit, ephemeralLimit);
    }
  }
}
