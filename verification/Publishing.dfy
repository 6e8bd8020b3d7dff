/** What saving a context's events does to the type table and the log, and what reading them back gives. */
module Publishing {
  import opened Records
  import opened EventStreams
  import opened TypeNames
  import opened MemoryEngine

  function ToStorage(e: SerializedEvent, typeId: int, now: int): StorageEvent {
    var s := Stamp(e, now);
    StorageEvent(s.aggregateId, s.sequence, typeId, s.state, s.eventTime, s.reference)
  }

  /** Resolving each event's type name in turn, adding the names that are new. */
  function Encode(t: NameTable, events: seq<SerializedEvent>, nows: seq<int>): (NameTable, seq<StorageEvent>)
    requires |nows| == |events|
  {
    if events == [] then (t, [])
    else
      var last := |events| - 1;
      var (t1, stored) := Encode(t, events[..last], nows[..last]);
      var (t2, id) := Resolve(t1, events[last].eventType);
      (t2, stored + [ToStorage(events[last], id, nows[last])])
  }

  predicate Named(events: seq<StorageEvent>, names: map<int, string>) {
    forall i :: 0 <= i < |events| ==> events[i].eventTypeId in names
  }

  // Type names once stored stay readable while names are added.
  lemma ReadBackStays(events: seq<StorageEvent>, t: NameTable, t': NameTable)
    requires Named(events, t.byId) && Keeps(t, t')
    ensures Named(events, t'.byId) && ReadBack(events, t'.byId) == ReadBack(events, t.byId)
  {
  }

  lemma ReadBackConcat(a: seq<StorageEvent>, b: seq<StorageEvent>, t: NameTable)
    ensures ReadBack(a + b, t.byId) == ReadBack(a, t.byId) + ReadBack(b, t.byId)
  {
  }

  /** Decoding what was encoded gives the events back, in order, with zero times stamped. */
  lemma {:induction false} EncodeReadsBack(t: NameTable, events: seq<SerializedEvent>, nows: seq<int>)
    requires OneToOne(t) && |nows| == |events|
    ensures var (t', stored) := Encode(t, events, nows);
            && OneToOne(t') && Keeps(t, t') && Named(stored, t'.byId)
            && ReadBack(stored, t'.byId) == StampAll(events, nows)
  {
    if events != [] {
      var last := |events| - 1;
      EncodeReadsBack(t, events[..last], nows[..last]);
      var (t1, stored) := Encode(t, events[..last], nows[..last]);
      ResolveKeeps(t1, events[last].eventType);
      var (t2, id) := Resolve(t1, events[last].eventType);
      ReadBackStays(stored, t1, t2);
      ReadBackConcat(stored, [ToStorage(events[last], id, nows[last])], t2);
      assert ReadBack([ToStorage(events[last], id, nows[last])], t2.byId) == [Stamp(events[last], nows[last])];
      StampLast(events, nows);
    }
  }

  // ---------------- What is stored, column by column ----------------

  // A zero time is replaced by the clock reading, and any other is kept.
  predicate TimeKept(time: int, now: int, saved: int) {
    if time == ZERO_TIME then saved == now else saved == time
  }

  // The stored event says what the published one says.
  predicate StoredAs(s: StorageEvent, names: map<int, string>, e: SerializedEvent, now: int) {
    && s.aggregateId == e.aggregateId && s.sequence == e.sequence && s.state == e.state && s.reference == e.reference
    && s.eventTypeId in names && names[s.eventTypeId] == e.eventType
    && TimeKept(e.eventTime, now, s.eventTime)
  }

  /** Each event is stored with the fields it was published with, in order. */
  lemma {:induction false} EncodesFields(t: NameTable, events: seq<SerializedEvent>, nows: seq<int>)
    requires OneToOne(t) && |nows| == |events|
    ensures var (t', stored) := Encode(t, events, nows);
            && OneToOne(t') && Keeps(t, t') && |stored| == |events|
            && forall i :: 0 <= i < |events| ==> StoredAs(stored[i], t'.byId, events[i], nows[i])
  {
    if events != [] {
      var last := |events| - 1;
      EncodesFields(t, events[..last], nows[..last]);
      ResolveKeeps(Encode(t, events[..last], nows[..last]).0, events[last].eventType);
    }
  }

  /** One context's worth of events, with the clock reading for each. */
  datatype Batch = Batch(events: seq<SerializedEvent>, nows: seq<int>)

  predicate Clocked(batches: seq<Batch>) {
    forall i :: 0 <= i < |batches| ==> |batches[i].nows| == |batches[i].events|
  }

  /** The type table and the log after saving one batch after another. */
  function SaveAll(t: NameTable, batches: seq<Batch>): (NameTable, seq<StorageEvent>)
    requires Clocked(batches)
  {
    if batches == [] then (t, [])
    else
      var last := |batches| - 1;
      var (t1, log) := SaveAll(t, batches[..last]);
      var (t2, stored) := Encode(t1, batches[last].events, batches[last].nows);
      (t2, log + stored)
  }

  function AllStamped(batches: seq<Batch>): seq<SerializedEvent>
    requires Clocked(batches)
  {
    if batches == [] then []
    else
      var last := |batches| - 1;
      AllStamped(batches[..last]) + StampAll(batches[last].events, batches[last].nows)
  }

  lemma {:induction false} SaveAllReadsBack(t: NameTable, batches: seq<Batch>)
    requires OneToOne(t) && Clocked(batches)
    ensures var (t', log) := SaveAll(t, batches);
            && OneToOne(t') && Keeps(t, t') && Named(log, t'.byId)
            && ReadBack(log, t'.byId) == AllStamped(batches)
  {
    if batches != [] {
      var last := |batches| - 1;
      SaveAllReadsBack(t, batches[..last]);
      var (t1, log) := SaveAll(t, batches[..last]);
      EncodeReadsBack(t1, batches[last].events, batches[last].nows);
      var (t2, stored) := Encode(t1, batches[last].events, batches[last].nows);
      ReadBackStays(log, t1, t2);
      ReadBackConcat(log, stored, t2);
    }
  }

  /** An event with the clock reading for it. */
  datatype Publication = Publication(event: SerializedEvent, now: int)

  /** What the batches publish, one after the other. */
  function Publications(batches: seq<Batch>): seq<Publication>
    requires Clocked(batches)
  {
    if batches == [] then []
    else
      var b := batches[|batches| - 1];
      Publications(batches[..|batches| - 1])
      + seq(|b.events|, i requires 0 <= i < |b.events| => Publication(b.events[i], b.nows[i]))
  }

  /** Those of one aggregate above a sequence. */
  function PublishedFor(all: seq<Publication>, aggregateId: int, afterSequence: int): seq<Publication> {
    if all == [] then []
    else
      var p := all[|all| - 1];
      PublishedFor(all[..|all| - 1], aggregateId, afterSequence)
      + (if p.event.aggregateId == aggregateId && p.event.sequence > afterSequence then [p] else [])
  }

  // The event read says what the published one says.
  predicate ReadsAs(r: SerializedEvent, p: Publication) {
    && r.aggregateId == p.event.aggregateId && r.eventType == p.event.eventType && r.state == p.event.state
    && r.sequence == p.event.sequence && r.reference == p.event.reference
    && TimeKept(p.event.eventTime, p.now, r.eventTime)
  }

  predicate AllReadAs(read: seq<SerializedEvent>, published: seq<Publication>) {
    |read| == |published| && forall i :: 0 <= i < |read| ==> ReadsAs(read[i], published[i])
  }

  lemma {:induction false} StampsReadAs(batches: seq<Batch>)
    requires Clocked(batches)
    ensures AllReadAs(AllStamped(batches), Publications(batches))
  {
    if batches != [] {
      StampsReadAs(batches[..|batches| - 1]);
    }
  }

  lemma {:induction false} AboveReadsAs(read: seq<SerializedEvent>, all: seq<Publication>, aggregateId: int,
                                        afterSequence: int)
    requires AllReadAs(read, all)
    ensures AllReadAs(Above(read, aggregateId, afterSequence), PublishedFor(all, aggregateId, afterSequence))
  {
    if read != [] {
      assert ReadsAs(read[|read| - 1], all[|all| - 1]);
      AboveReadsAs(read[..|read| - 1], all[..|all| - 1], aggregateId, afterSequence);
    }
  }

  /**
   Field by field, over any run of contexts: the k-th event read of an aggregate above a sequence has the type, state,
   sequence and reference of the k-th published one, and its time, or else the clock reading for it.
   */
  lemma PublishedFieldsAreRead(batches: seq<Batch>, aggregateId: int, afterSequence: int)
    requires Clocked(batches)
    ensures var (t, log) := SaveAll(EMPTY_TABLE, batches);
            AllReadAs(Above(ReadBack(log, t.byId), aggregateId, afterSequence),
                      PublishedFor(Publications(batches), aggregateId, afterSequence))
  {
    PublishedIsRead(batches, aggregateId, afterSequence);
    StampsReadAs(batches);
    AboveReadsAs(AllStamped(batches), Publications(batches), aggregateId, afterSequence);
  }

  /**
   Round trip over any run of contexts: reading an aggregate above a sequence gives exactly what was published for it
   above that sequence, in order, with every field kept and only zero times replaced.
   */
  lemma PublishedIsRead(batches: seq<Batch>, aggregateId: int, afterSequence: int)
    requires Clocked(batches)
    ensures var (t, log) := SaveAll(EMPTY_TABLE, batches);
            Above(ReadBack(log, t.byId), aggregateId, afterSequence)
            == Above(AllStamped(batches), aggregateId, afterSequence)
  {
    SaveAllReadsBack(EMPTY_TABLE, batches);
  }
}
