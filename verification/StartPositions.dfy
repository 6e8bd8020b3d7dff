/** Where runs of a subscription start, and what one turn does, in terms of what the caller asked for. */
module StartPositions {
  import opened Wrappers
  import opened Records
  import opened EventLog
  import opened EngineTables
  import opened Leases
  import opened Draining
  import opened MemoryEngine
  import opened SubscriptionRuns
  import opened SubscriptionTheorems

  // ---------------- What has been handed over, by id ----------------

  ghost predicate HasId(delivered: seq<seq<SerializedEvent>>, id: int) {
    exists e :: e in Concat(delivered) && e.eventId == id
  }

  lemma RenderHasId(log: seq<LogRow>, ids: seq<int>, delivered: seq<seq<SerializedEvent>>, id: int)
    requires Concat(delivered) == Render(log, ids)
    ensures HasId(delivered, id) <==> id in ids
  {
    var events := Render(log, ids);
    if id in ids {
      var i :| 0 <= i < |ids| && ids[i] == id;
      assert events[i] in Concat(delivered) && events[i].eventId == id;
    }
    if HasId(delivered, id) {
      var e :| e in Concat(delivered) && e.eventId == id;
      var i :| 0 <= i < |events| && events[i] == e;
      assert ids[i] == id;
    }
  }

  // The ids handed over are exactly the matches above one position and up to another.
  ghost predicate HandsExactly(log: seq<LogRow>, f: Filter, from: int, cursor: int,
                               delivered: seq<seq<SerializedEvent>>) {
    forall id :: HasId(delivered, id) <==> Max(from, 0) < id <= Min(cursor, |log|) && Matches(f, log[id - 1])
  }

  lemma HandedExactly(log: seq<LogRow>, f: Filter, from: int, cursor: int, delivered: seq<seq<SerializedEvent>>)
    requires HandedOver(log, f, from, cursor, delivered)
    ensures HandsExactly(log, f, from, cursor, delivered)
  {
    SelectExact(log, f, from, Min(cursor, |log|));
    forall id
      ensures HasId(delivered, id) <==> id in SelectUpTo(log, f, from, cursor)
    {
      RenderHasId(log, SelectUpTo(log, f, from, cursor), delivered, id);
    }
  }

  // ---------------- Where a start begins ----------------

  // Some event of the log is at or after this time.
  predicate ReachesTime(log: seq<LogRow>, ts: int) {
    exists i :: 0 <= i < |log| && ts <= log[i].eventTime
  }

  /**
   The last id that a start leaves out, for a log as it is when the run starts: none, all that is there, those up to a
   given id, or those before the first event that is not earlier than a given time.
   */
  ghost predicate LeavesOut(start: Start, log: seq<LogRow>, n: int) {
    match start.kind
    case Beginning => n == 0
    case Unset => n == 0
    case End => n == |log|
    case EventId => n == if start.eventId < 0 then 0 else start.eventId
    case Timestamp =>
      if start.timestamp == ZERO_TIME || !ReachesTime(log, start.timestamp) then n == 0
      else
        && 0 <= n < |log| && start.timestamp <= log[n].eventTime
        && forall i :: 0 <= i < n ==> log[i].eventTime < start.timestamp
    case Unknown => false
  }

  predicate Known(start: Start) {
    start.kind != Unknown
  }

  lemma LeavesOutOne(start: Start, log: seq<LogRow>, m: int, n: int)
    requires LeavesOut(start, log, m) && LeavesOut(start, log, n)
    ensures m == n
  {
  }

  lemma PlacedLeavesOut(row: SubscriptionRow, log: seq<LogRow>)
    requires row.lastEventId == 0 && Known(row.start) && row.start.kind != Unset
    ensures LeavesOut(row.start, log, Placed(row, log).lastEventId) && !PlaceCursor(row.start, log).Reject?
  {
    if row.start.kind == Timestamp && row.start.timestamp != ZERO_TIME {
      var first := FirstFrom(log, row.start.timestamp);
      assert first != 0 ==> ReachesTime(log, row.start.timestamp);
    }
  }

  lemma LocalLeavesOut(start: Start, log: seq<LogRow>)
    requires Known(start)
    ensures EphemeralCursor(start, log).Some? && LeavesOut(start, log, EphemeralCursor(start, log).value)
  {
    if start.kind == Timestamp && start.timestamp != ZERO_TIME {
      var first := FirstFrom(log, start.timestamp);
      assert first != 0 ==> ReachesTime(log, start.timestamp);
    }
  }

  // ---------------- The durable run ----------------

  /**
   A run of a subscription that has not read yet hands over exactly the matches after what its start leaves out, up to
   the cursor that it stores. An unknown start, and the empty one, is refused.
   */
  lemma StartsWhereItSays(log0: seq<LogRow>, seen: seq<Seen>, defined: SubscriptionRow, f: Filter, opts: Options,
                          now: int, n: int)
    requires LogGrows(log0, seen) && MayClaim(defined.lease, now) && defined.lastEventId == 0
    requires LeavesOut(defined.start, log0, n) && defined.start.kind != Unset
    ensures var a := Answer(log0, seen, defined, f, opts, now);
            && a.stop !in {Some(AlreadyOwned), Some(UnknownStart)}
            && n <= a.row.lastEventId
            && HandsExactly(LogBefore(log0, seen, |seen|), f, n, a.row.lastEventId, a.delivered)
  {
    RunHandsOver(log0, seen, defined, f, opts, now);
    PlacedLeavesOut(defined, log0);
    LeavesOutOne(defined.start, log0, n, Placed(defined, log0).lastEventId);
    var a := Answer(log0, seen, defined, f, opts, now);
    HandedExactly(LogBefore(log0, seen, |seen|), f, n, a.row.lastEventId, a.delivered);
  }

  lemma UnknownIsRefused(log0: seq<LogRow>, seen: seq<Seen>, defined: SubscriptionRow, f: Filter, opts: Options,
                         now: int)
    requires LogGrows(log0, seen) && MayClaim(defined.lease, now) && defined.lastEventId == 0
    ensures Answer(log0, seen, defined, f, opts, now).stop == Some(UnknownStart)
            <==> defined.start.kind == Unknown || defined.start.kind == Unset
  {
    RunHandsOver(log0, seen, defined, f, opts, now);
    if Known(defined.start) && defined.start.kind != Unset {
      PlacedLeavesOut(defined, log0);
    }
  }

  /** A run of a subscription that has read before goes on after its stored cursor, whatever its start says. */
  lemma ResumesAfterCursor(log0: seq<LogRow>, seen: seq<Seen>, defined: SubscriptionRow, f: Filter, opts: Options,
                           now: int)
    requires LogGrows(log0, seen) && MayClaim(defined.lease, now) && defined.lastEventId != 0
    ensures var a := Answer(log0, seen, defined, f, opts, now);
            && a.stop !in {Some(AlreadyOwned), Some(UnknownStart)}
            && defined.lastEventId <= a.row.lastEventId
            && HandsExactly(LogBefore(log0, seen, |seen|), f, defined.lastEventId, a.row.lastEventId, a.delivered)
  {
    RunHandsOver(log0, seen, defined, f, opts, now);
    var a := Answer(log0, seen, defined, f, opts, now);
    HandedExactly(LogBefore(log0, seen, |seen|), f, defined.lastEventId, a.row.lastEventId, a.delivered);
  }

  // What each kind of start promises of an event that is handed over. A timestamp does so of what it finds in the log.
  ghost predicate StartAllows(start: Start, log0: seq<LogRow>, id: int) {
    && (start.kind == End ==> |log0| < id)
    && (start.kind == EventId ==> start.eventId < id)
    && (start.kind == Timestamp && start.timestamp != ZERO_TIME && 1 <= id <= |log0| ==>
          ReachesTime(log0[..id], start.timestamp))
  }

  // The start is no timestamp, or the log has reached it.
  predicate InReach(start: Start, log0: seq<LogRow>) {
    start.kind == Timestamp && start.timestamp != ZERO_TIME ==> ReachesTime(log0, start.timestamp)
  }

  lemma AllowedAfter(start: Start, log0: seq<LogRow>, n: int, id: int)
    requires LeavesOut(start, log0, n) && n < id
    ensures StartAllows(start, log0, id) <==> InReach(start, log0) || |log0| < id
  {
    if start.kind == Timestamp && start.timestamp != ZERO_TIME && 1 <= id <= |log0| {
      var part := log0[..id];
      if ReachesTime(log0, start.timestamp) {
        assert part[n] == log0[n];
      }
      if ReachesTime(part, start.timestamp) {
        var i :| 0 <= i < |part| && start.timestamp <= part[i].eventTime;
        assert log0[i] == part[i];
      }
    }
  }

  // No event that was there at the start matches, as far as the cursor has come.
  predicate NoneBefore(log0: seq<LogRow>, f: Filter, cursor: int) {
    forall i :: 0 <= i < Min(cursor, |log0|) ==> !Matches(f, log0[i])
  }

  /**
   Nothing from before its start is handed over, except that a timestamp that the log has not reached starts at the
   beginning: the promise is kept if and only if the start is within reach of the log, or no event that is already there
   matches, as far as the run has come.
   */
  lemma NothingBeforeStart(log0: seq<LogRow>, seen: seq<Seen>, defined: SubscriptionRow, f: Filter, opts: Options,
                           now: int, n: int)
    requires LogGrows(log0, seen) && MayClaim(defined.lease, now) && defined.lastEventId == 0
    requires LeavesOut(defined.start, log0, n) && defined.start.kind != Unset
    ensures var a := Answer(log0, seen, defined, f, opts, now);
            (forall id :: HasId(a.delivered, id) ==> StartAllows(defined.start, log0, id))
            <==> InReach(defined.start, log0) || NoneBefore(log0, f, a.row.lastEventId)
  {
    StartsWhereItSays(log0, seen, defined, f, opts, now, n);
    LogOnlyGrew(log0, seen);
    var a := Answer(log0, seen, defined, f, opts, now);
    forall id | HasId(a.delivered, id)
      ensures StartAllows(defined.start, log0, id) <==> InReach(defined.start, log0) || |log0| < id
    {
      AllowedAfter(defined.start, log0, n, id);
    }
    if !InReach(defined.start, log0) {
      FromTheBeginning(log0, LogBefore(log0, seen, |seen|), f, a.row.lastEventId, a.delivered);
    }
  }

  lemma {:induction false} LogOnlyGrew(log0: seq<LogRow>, seen: seq<Seen>)
    requires LogGrows(log0, seen)
    ensures log0 <= LogBefore(log0, seen, |seen|)
    decreases |seen|
  {
    if seen != [] {
      LogGrewBefore(log0, seen);
      LogOnlyGrew(log0, seen[..|seen| - 1]);
    }
  }

  lemma FromTheBeginning(log0: seq<LogRow>, log: seq<LogRow>, f: Filter, cursor: int,
                         delivered: seq<seq<SerializedEvent>>)
    requires log0 <= log && HandsExactly(log, f, 0, cursor, delivered)
    ensures NoneBefore(log0, f, cursor) <==> forall id :: HasId(delivered, id) ==> |log0| < id
  {
    if !NoneBefore(log0, f, cursor) {
      var i :| 0 <= i < Min(cursor, |log0|) && Matches(f, log0[i]);
      assert log[i] == log0[i] && HasId(delivered, i + 1);
    }
  }

  // ---------------- The ephemeral run ----------------

  lemma {:induction false} KeptMembers(log: seq<LogRow>, names: Option<set<string>>, ids: seq<int>)
    requires InLog(log, ids)
    ensures forall id :: id in KeepNames(log, names, ids) <==>
              id in ids && 1 <= id <= |log| && IsKept(names, log[id - 1])
  {
    if ids != [] {
      KeptMembers(log, names, ids[..|ids| - 1]);
      assert forall id :: id in ids <==> id in ids[..|ids| - 1] || id == Last(ids);
    }
  }

  ghost predicate KeepsExactly(log: seq<LogRow>, g: Filter, names: Option<set<string>>, from: int, cursor: int,
                               delivered: seq<seq<SerializedEvent>>) {
    forall id :: HasId(delivered, id) <==>
      Max(from, 0) < id <= Min(cursor, |log|) && Matches(g, log[id - 1]) && IsKept(names, log[id - 1])
  }

  lemma KeptExactly(log: seq<LogRow>, g: Filter, names: Option<set<string>>, from: int, cursor: int,
                    delivered: seq<seq<SerializedEvent>>)
    requires KeptOver(log, g, names, from, cursor, delivered)
    ensures KeepsExactly(log, g, names, from, cursor, delivered)
  {
    var ids := SelectUpTo(log, g, from, cursor);
    SelectExact(log, g, from, Min(cursor, |log|));
    KeptMembers(log, names, ids);
    forall id
      ensures HasId(delivered, id) <==> id in KeepNames(log, names, ids)
    {
      RenderHasId(log, KeepNames(log, names, ids), delivered, id);
    }
  }

  /** The ephemeral run starts in the same places, and takes the empty start for the beginning. */
  lemma LocalStartsWhereItSays(log0: seq<LogRow>, seen: seq<Seen>, g: Filter, names: Option<set<string>>, start: Start,
                               opts: Options, n: int)
    requires LogGrows(log0, seen) && LeavesOut(start, log0, n)
    ensures var a := LocalAnswer(log0, seen, g, names, start, opts);
            && a.stop != Some(UnknownStart) && n <= a.cursor
            && KeepsExactly(LogBefore(log0, seen, |seen|), g, names, n, a.cursor, a.delivered)
  {
    LocalRunHandsOver(log0, seen, g, names, start, opts);
    LocalLeavesOut(start, log0);
    LeavesOutOne(start, log0, n, EphemeralCursor(start, log0).value);
    var a := LocalAnswer(log0, seen, g, names, start, opts);
    KeptExactly(LogBefore(log0, seen, |seen|), g, names, n, a.cursor, a.delivered);
  }
}
