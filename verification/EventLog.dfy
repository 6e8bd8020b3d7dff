/** The event log as a query target. The event with id `i` is `log[i - 1]`. */
module EventLog {
  import opened Records

  predicate Matches(f: Filter, row: LogRow) {
    && (f.aggregateTypeId.Some? ==> row.aggregateTypeId == f.aggregateTypeId.value)
    && (f.aggregateKey.Some? ==> row.naturalKey == f.aggregateKey)
    && (if f.eventTypes != {} then row.eventTypeId in f.eventTypes
        else f.eventTypeId.Some? ==> row.eventTypeId == f.eventTypeId.value)
  }

  function Max(a: int, b: int): int {
    if a < b then b else a
  }

  function Min(a: int, b: int): int {
    if a < b then a else b
  }

  /** The ids of the matching events in (lo, hi], oldest first. */
  function Select(log: seq<LogRow>, f: Filter, lo: int, hi: int): (ids: seq<int>)
    requires hi <= |log|
    decreases Max(hi, 0)
  {
    if hi <= lo || hi <= 0 then []
    else Select(log, f, lo, hi - 1) + (if Matches(f, log[hi - 1]) then [hi] else [])
  }

  predicate Increasing(ids: seq<int>) {
    forall i, j :: 0 <= i < j < |ids| ==> ids[i] < ids[j]
  }

  /** An increasing selection holds each matching id once, in log order, and nothing else. */
  lemma {:induction false} SelectExact(log: seq<LogRow>, f: Filter, lo: int, hi: int)
    requires hi <= |log|
    ensures Increasing(Select(log, f, lo, hi))
    ensures forall id :: id in Select(log, f, lo, hi) <==> Max(lo, 0) < id <= hi && Matches(f, log[id - 1])
    decreases Max(hi, 0)
  {
    if lo < hi && 0 < hi {
      SelectExact(log, f, lo, hi - 1);
      var rest := Select(log, f, lo, hi - 1);
      assert forall i :: 0 <= i < |rest| ==> rest[i] in rest;
    }
  }

  lemma {:induction false} SelectSplit(log: seq<LogRow>, f: Filter, lo: int, mid: int, hi: int)
    requires lo <= mid <= hi <= |log|
    ensures Select(log, f, lo, hi) == Select(log, f, lo, mid) + Select(log, f, mid, hi)
    decreases hi - mid
  {
    if mid < hi {
      SelectSplit(log, f, lo, mid, hi - 1);
    }
  }

  /** Appending to the log does not change what was selected from it. */
  lemma {:induction false} SelectStable(log: seq<LogRow>, longer: seq<LogRow>, f: Filter, lo: int, hi: int)
    requires log <= longer
    requires hi <= |log|
    ensures Select(longer, f, lo, hi) == Select(log, f, lo, hi)
    decreases Max(hi, 0)
  {
    if lo < hi && 0 < hi {
      SelectStable(log, longer, f, lo, hi - 1);
    }
  }

  function Take(ids: seq<int>, limit: int): seq<int> {
    if limit <= 0 then [] else if |ids| <= limit then ids else ids[..limit]
  }

  /** What one poll of a subscription reads: the first `limit` matching events after the cursor. */
  function Fetch(log: seq<LogRow>, f: Filter, cursor: int, limit: int): seq<int> {
    Take(Select(log, f, cursor, |log|), limit)
  }

  function Last(ids: seq<int>): int
    requires ids != []
  {
    ids[|ids| - 1]
  }

  /** The first k selected ids are the whole selection up to the k-th of them. */
  lemma {:induction false} SelectTake(log: seq<LogRow>, f: Filter, lo: int, hi: int, k: nat)
    requires hi <= |log|
    requires 0 < k <= |Select(log, f, lo, hi)|
    ensures lo < Select(log, f, lo, hi)[k - 1] <= hi
    ensures Select(log, f, lo, hi)[..k] == Select(log, f, lo, Select(log, f, lo, hi)[k - 1])
    decreases Max(hi, 0)
  {
    var all := Select(log, f, lo, hi);
    if k == |all| && Matches(f, log[hi - 1]) {
      assert all[..k] == all;
    } else {
      var rest := Select(log, f, lo, hi - 1);
      SelectTake(log, f, lo, hi - 1, k);
      assert all[..k] == rest[..k];
    }
  }

  /** A non-empty fetch leaves out no match up to its last id; an empty one means that none is left. */
  lemma FetchCovers(log: seq<LogRow>, f: Filter, cursor: int, limit: int)
    requires 0 < limit
    ensures Fetch(log, f, cursor, limit) == [] ==> Select(log, f, cursor, |log|) == []
    ensures var batch := Fetch(log, f, cursor, limit);
            batch != [] ==> Max(cursor, 0) < Last(batch) <= |log| && batch == Select(log, f, cursor, Last(batch))
  {
    var all := Select(log, f, cursor, |log|);
    SelectExact(log, f, cursor, |log|);
    var batch := Fetch(log, f, cursor, limit);
    if batch != [] {
      SelectTake(log, f, cursor, |log|, |batch|);
      assert batch == all[..|batch|];
      assert Last(batch) in all;
    }
  }

  /** A scan that stops when it has `limit` matches has read what the fetch asks for. */
  lemma FullBatch(log: seq<LogRow>, f: Filter, cursor: int, id: int, limit: int)
    requires cursor <= id <= |log| && 0 < limit == |Select(log, f, cursor, id)|
    ensures Fetch(log, f, cursor, limit) == Select(log, f, cursor, id)
  {
    SelectSplit(log, f, cursor, id, |log|);
  }

  /**
   A scan that stops after its first match reads as if the limit were 1; a limit of 0 shows exactly when there is a
   match.
   */
  lemma LimitZeroExactly(log: seq<LogRow>, f: Filter, cursor: int, limit: nat)
    ensures Fetch(log, f, cursor, Max(limit, 1)) == Fetch(log, f, cursor, limit)
            <==> 0 < limit || Select(log, f, cursor, |log|) == []
  {
  }

  /** The smallest id whose time is not before `ts`, or 0. `from` is where the scan starts. */
  function FirstFrom(log: seq<LogRow>, ts: int, from: nat := 0): (id: int)
    requires from <= |log|
    ensures id == 0 <==> forall i :: from <= i < |log| ==> log[i].eventTime < ts
    ensures id != 0 ==> from < id <= |log| && ts <= log[id - 1].eventTime
    ensures id != 0 ==> forall i :: from <= i < id - 1 ==> log[i].eventTime < ts
    decreases |log| - from
  {
    if from == |log| then 0
    else if ts <= log[from].eventTime then from + 1
    else FirstFrom(log, ts, from + 1)
  }

  /** What a runner does to a cursor that is still 0. */
  datatype Placement = Stay | MoveTo(cursor: int) | Reject

  function PlaceCursor(start: Start, log: seq<LogRow>): (p: Placement) {
    match start.kind
    case Beginning => Stay
    case End => if 0 < |log| then MoveTo(|log|) else Stay
    case EventId => if 0 < start.eventId then MoveTo(start.eventId) else Stay
    case Timestamp =>
      if start.timestamp == ZERO_TIME then Stay
      else
        var first := FirstFrom(log, start.timestamp);
        if 0 < first then MoveTo(first - 1) else Stay
    case _ => Reject
  }

  /** A timestamp start passes over strictly earlier events only, even when times are out of order. */
  lemma TimestampStartSkipsOnlyEarlier(start: Start, log: seq<LogRow>)
    requires start.kind == Timestamp
    ensures var p := PlaceCursor(start, log);
            p.MoveTo? ==>
              && 0 <= p.cursor < |log|
              && start.timestamp <= log[p.cursor].eventTime
              && forall i :: 0 <= i < p.cursor ==> log[i].eventTime < start.timestamp
  {
  }
}
