/** Reading one aggregate's events and snapshots out of a store. */
module EventStreams {
  import opened Wrappers
  import opened Records

  /** An event as it is saved: a zero time becomes the time of saving, and the log id is not kept. */
  function Stamp(e: SerializedEvent, now: int): SerializedEvent {
    e.(eventId := 0, eventTime := if e.eventTime == ZERO_TIME then now else e.eventTime)
  }

  function StampAll(events: seq<SerializedEvent>, nows: seq<int>): (stamped: seq<SerializedEvent>)
    requires |nows| == |events|
    ensures |stamped| == |events|
    ensures forall i :: 0 <= i < |events| ==> stamped[i] == Stamp(events[i], nows[i])
  {
    seq(|events|, i requires 0 <= i < |events| => Stamp(events[i], nows[i]))
  }

  lemma StampLast(events: seq<SerializedEvent>, nows: seq<int>)
    requires events != [] && |nows| == |events|
    ensures var last := |events| - 1;
            StampAll(events, nows) == StampAll(events[..last], nows[..last]) + [Stamp(events[last], nows[last])]
  {
  }

  /** One aggregate's events above a sequence, in the order given. */
  function Above(events: seq<SerializedEvent>, aggregateId: int, afterSequence: int): seq<SerializedEvent> {
    if events == [] then []
    else
      var e := events[|events| - 1];
      Above(events[..|events| - 1], aggregateId, afterSequence)
      + (if e.aggregateId == aggregateId && e.sequence > afterSequence then [e] else [])
  }

  lemma {:induction false} AboveConcat(a: seq<SerializedEvent>, b: seq<SerializedEvent>, aggregateId: int,
                                       afterSequence: int)
    ensures Above(a + b, aggregateId, afterSequence)
            == Above(a, aggregateId, afterSequence) + Above(b, aggregateId, afterSequence)
    decreases |b|
  {
    if b == [] {
      assert a + b == a;
    } else {
      assert (a + b)[..|a + b| - 1] == a + b[..|b| - 1];
      AboveConcat(a, b[..|b| - 1], aggregateId, afterSequence);
    }
  }

  // The sequences of a stream are 1, 2, 3 and so on.
  predicate GapFree(events: seq<SerializedEvent>) {
    forall i :: 0 <= i < |events| ==> events[i].sequence == i + 1
  }

  function From(events: seq<SerializedEvent>, after: nat): seq<SerializedEvent> {
    if after <= |events| then events[after..] else []
  }

  lemma FromOneMore(before: seq<SerializedEvent>, e: SerializedEvent, after: nat)
    requires GapFree(before + [e])
    ensures GapFree(before)
    ensures From(before + [e], after) == From(before, after) + (if e.sequence > after then [e] else [])
  {
    var all := before + [e];
    assert all[|before|] == e;
    assert forall i :: 0 <= i < |before| ==> all[i] == before[i];
  }

  /** In a gap-free stream the events above a sequence are the ones from that position on. */
  lemma {:induction false} AboveIsSuffix(events: seq<SerializedEvent>, aggregateId: int, after: nat)
    requires GapFree(Above(events, aggregateId, 0))
    ensures Above(events, aggregateId, after) == From(Above(events, aggregateId, 0), after)
  {
    if events != [] {
      var init, e := events[..|events| - 1], events[|events| - 1];
      if e.aggregateId == aggregateId && e.sequence > 0 {
        FromOneMore(Above(init, aggregateId, 0), e, after);
      } else {
        assert Above(events, aggregateId, 0) == Above(init, aggregateId, 0);
      }
      AboveIsSuffix(init, aggregateId, after);
    }
  }

  // ---------------- The SQL queries ----------------

  function InsertInOrder(events: seq<SerializedEvent>, e: SerializedEvent): seq<SerializedEvent> {
    if events == [] || events[|events| - 1].sequence <= e.sequence then events + [e]
    else InsertInOrder(events[..|events| - 1], e) + [events[|events| - 1]]
  }

  /** ORDER BY sequence. */
  function BySequence(events: seq<SerializedEvent>): seq<SerializedEvent> {
    if events == [] then [] else InsertInOrder(BySequence(events[..|events| - 1]), events[|events| - 1])
  }

  predicate Ordered(events: seq<SerializedEvent>) {
    forall i, j :: 0 <= i < j < |events| ==> events[i].sequence <= events[j].sequence
  }

  lemma {:induction false} InsertKeepsAll(events: seq<SerializedEvent>, e: SerializedEvent)
    ensures multiset(InsertInOrder(events, e)) == multiset(events) + multiset{e}
    ensures forall x :: x in InsertInOrder(events, e) ==> x in events || x == e
  {
    if events != [] && events[|events| - 1].sequence > e.sequence {
      var init, last := events[..|events| - 1], events[|events| - 1];
      InsertKeepsAll(init, e);
      assert events == init + [last];
    }
  }

  lemma {:induction false} InsertKeepsOrder(events: seq<SerializedEvent>, e: SerializedEvent)
    requires Ordered(events)
    ensures Ordered(InsertInOrder(events, e))
  {
    if events != [] && events[|events| - 1].sequence > e.sequence {
      var init, last := events[..|events| - 1], events[|events| - 1];
      InsertKeepsOrder(init, e);
      InsertKeepsAll(init, e);
      var r := InsertInOrder(init, e);
      forall i | 0 <= i < |r|
        ensures r[i].sequence <= last.sequence
      {
        assert r[i] in r;
      }
    }
  }

  /** The result is in order and has the same events. */
  lemma {:induction false} BySequenceSorts(events: seq<SerializedEvent>)
    ensures Ordered(BySequence(events)) && multiset(BySequence(events)) == multiset(events)
  {
    if events != [] {
      BySequenceSorts(events[..|events| - 1]);
      InsertKeepsOrder(BySequence(events[..|events| - 1]), events[|events| - 1]);
      InsertKeepsAll(BySequence(events[..|events| - 1]), events[|events| - 1]);
      assert events == events[..|events| - 1] + [events[|events| - 1]];
    }
  }

  function EventsAfter(events: seq<SerializedEvent>, aggregateId: int, afterSequence: int): seq<SerializedEvent> {
    BySequence(Above(events, aggregateId, afterSequence))
  }

  lemma {:induction false} OrderedStays(events: seq<SerializedEvent>)
    requires Ordered(events)
    ensures BySequence(events) == events
  {
    if events != [] {
      OrderedStays(events[..|events| - 1]);
    }
  }

  /** ORDER BY sequence DESC LIMIT 1. */
  function MostRecent(snapshots: seq<Snapshot>, aggregateId: int): (r: Option<Snapshot>)
    ensures r.None? <==> forall s :: s in snapshots ==> s.aggregateId != aggregateId
    ensures r.Some? ==> r.value in snapshots && r.value.aggregateId == aggregateId
    ensures r.Some? ==> forall s :: s in snapshots && s.aggregateId == aggregateId ==> s.sequence <= r.value.sequence
  {
    if snapshots == [] then None
    else
      var last := snapshots[|snapshots| - 1];
      var init := snapshots[..|snapshots| - 1];
      var r := MostRecent(init, aggregateId);
      assert forall s :: s in snapshots <==> s in init || s == last;
      if last.aggregateId == aggregateId && (r.None? || r.value.sequence < last.sequence) then Some(last) else r
  }

  // ---------------- The UNIQUE constraint ----------------

  type Pair = (int, int)

  function SnapshotPairs(snapshots: seq<Snapshot>): (pairs: seq<Pair>)
    ensures |pairs| == |snapshots|
    ensures forall i :: 0 <= i < |snapshots| ==> pairs[i] == (snapshots[i].aggregateId, snapshots[i].sequence)
  {
    seq(|snapshots|, i requires 0 <= i < |snapshots| => (snapshots[i].aggregateId, snapshots[i].sequence))
  }

  lemma SnapshotPairsConcat(a: seq<Snapshot>, b: seq<Snapshot>)
    ensures SnapshotPairs(a + b) == SnapshotPairs(a) + SnapshotPairs(b)
  {
  }

  /** Inserting rows one after another, each checked against all rows so far. */
  predicate Insertable(present: seq<Pair>, added: seq<Pair>)
    decreases |added|
  {
    added == [] ||
    (Insertable(present, added[..|added| - 1]) && added[|added| - 1] !in present + added[..|added| - 1])
  }

  predicate Distinct(pairs: seq<Pair>) {
    forall i, j :: 0 <= i < j < |pairs| ==> pairs[i] != pairs[j]
  }

  /** The inserts all succeed exactly when the table with all of them in it has no duplicate. */
  lemma {:induction false} InsertableExact(present: seq<Pair>, added: seq<Pair>)
    requires Distinct(present)
    ensures Insertable(present, added) <==> Distinct(present + added)
    decreases |added|
  {
    var all := present + added;
    if added == [] {
      assert all == present;
    } else {
      var init := added[..|added| - 1];
      InsertableExact(present, init);
      assert all == (present + init) + [added[|added| - 1]];
      assert forall i :: 0 <= i < |present + init| ==> all[i] == (present + init)[i];
      assert all[|all| - 1] == added[|added| - 1];
    }
  }

  // ---------------- The latest snapshot in memory ----------------

  /** What the memory engine returns: the aggregate's snapshot that was captured last. */
  function LastCaptured(snapshots: seq<Snapshot>, aggregateId: int): (r: Option<Snapshot>)
    ensures r.None? <==> forall s :: s in snapshots ==> s.aggregateId != aggregateId
    ensures r.Some? ==>
              exists i :: 0 <= i < |snapshots| && snapshots[i] == r.value && r.value.aggregateId == aggregateId
                          && forall j :: i < j < |snapshots| ==> snapshots[j].aggregateId != aggregateId
  {
    if snapshots == [] then None
    else
      var last := snapshots[|snapshots| - 1];
      var init := snapshots[..|snapshots| - 1];
      assert forall s :: s in snapshots <==> s in init || s == last;
      if last.aggregateId == aggregateId then Some(last) else LastCaptured(init, aggregateId)
  }
}
