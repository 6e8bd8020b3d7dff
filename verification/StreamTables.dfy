/** The runs of concurrent contexts, carried out on the SQLite tables. */
module StreamTables {
  import opened Records
  import opened EventStreams
  import opened TypeNames
  import opened MemoryEngine
  import opened Publishing
  import opened Aggregates
  import opened Streams
  import opened StreamSequences
  import opened StreamTheorems
  import opened StreamMeanings
  import opened StreamReplays
  import opened SqliteEngine
  import opened Loading

  /** The tables of the database, the one of event types included. */
  datatype Database = Database(types: NameTable, tables: Tables)

  const EMPTY_DATABASE := Database(EMPTY_TABLE, Tables([], []))

  /** What a commit of these events and snapshots does to the database; a failed one is rolled back as a whole. */
  function CommitTo(d: Database, events: seq<SerializedEvent>, snapshots: seq<Snapshot>, nows: seq<int>)
    : (Database, bool)
    requires |nows| == |events|
  {
    var (types, stored) := Encode(d.types, events, nows);
    var work := Work(stored, snapshots);
    if Writable(d.tables, work) then (Database(types, Written(d.tables, work)), true) else (d, false)
  }

  // Read back through the type names, the tables hold the committed rows and snapshots, in order.
  ghost predicate Represents<S>(d: Database, w: World<S>) {
    && OneToOne(d.types) && Named(d.tables.events, d.types.byId)
    && ReadBack(d.tables.events, d.types.byId) == Events(w.rows)
    && d.tables.snapshots == w.snapshots
  }

  lemma SameEventPairs<S>(events: seq<StorageEvent>, names: map<int, string>, rows: seq<Row<S>>)
    requires ReadBack(events, names) == Events(rows)
    ensures EventPairs(events) == Pairs(rows)
  {
    forall i | 0 <= i < |events|
      ensures EventPairs(events)[i] == Pairs(rows)[i]
    {
      assert ReadBack(events, names)[i] == rows[i].event;
    }
  }

  lemma EncodedPairs<S>(t: NameTable, captured: seq<Row<S>>, nows: seq<int>)
    requires OneToOne(t) && |nows| == |captured|
    ensures EventPairs(Encode(t, Events(captured), nows).1) == Pairs(captured)
  {
    EncodeReadsBack(t, Events(captured), nows);
    var (t', stored) := Encode(t, Events(captured), nows);
    forall i | 0 <= i < |captured|
      ensures EventPairs(stored)[i] == Pairs(captured)[i]
    {
      assert ReadBack(stored, t'.byId)[i] == Stamp(captured[i].event, nows[i]);
    }
  }

  lemma EventsConcat<S>(a: seq<Row<S>>, b: seq<Row<S>>)
    ensures Events(a + b) == Events(a) + Events(b)
  {
  }

  lemma StampedEvents<S>(captured: seq<Row<S>>, nows: seq<int>)
    requires |nows| == |captured|
    ensures Events(Stamped(captured, nows)) == StampAll(Events(captured), nows)
  {
  }

  /** A commit succeeds on the tables exactly when it does in the run, and what the tables hold stays right. */
  lemma CommitKeepsRepresents<S>(d: Database, w: World<S>, c: int, ctx: Ctx<S>, nows: seq<int>)
    requires Represents(d, w) && |nows| == |ctx.captured|
    ensures var (d', ok) := CommitTo(d, Events(ctx.captured), ctx.snapshots, nows);
            (ok <==> Commits(w, ctx)) && Represents(d', AfterCommit(w, c, ctx, nows))
  {
    var events := Events(ctx.captured);
    var (types, stored) := Encode(d.types, events, nows);
    SameEventPairs(d.tables.events, d.types.byId, w.rows);
    EncodedPairs(d.types, ctx.captured, nows);
    EncodeReadsBack(d.types, events, nows);
    ReadBackStays(d.tables.events, d.types, types);
    ReadBackConcat(d.tables.events, stored, types);
    StampedEvents(ctx.captured, nows);
    EventsConcat(w.rows, Stamped(ctx.captured, nows));
  }

  // The database after a run: only commits touch it.
  ghost function TablesAfter<S(!new), E(!new)>(ks: Kinds<S, E>, moves: seq<Move<E>>): Database
    requires Run(ks, moves).Some?
  {
    if moves == [] then EMPTY_DATABASE
    else
      var init, m := moves[..|moves| - 1], moves[|moves| - 1];
      var d, w := TablesAfter(ks, init), Run(ks, init).value;
      if m.Commit? then
        var ctx := w.contexts[m.c];
        CommitTo(d, Events(ctx.captured), ctx.snapshots, m.nows).0
      else d
  }

  lemma MoveKeepsRepresents<S(!new), E(!new)>(ks: Kinds<S, E>, d: Database, w: World<S>, m: Move<E>)
    requires Represents(d, w) && Next(ks, w, m).Some? && !m.Commit?
    ensures Represents(d, Next(ks, w, m).value)
  {
  }

  /** After every run the tables hold exactly the rows and snapshots of the run. */
  lemma {:induction false} TablesHoldTheRun<S(!new), E(!new)>(ks: Kinds<S, E>, moves: seq<Move<E>>)
    requires Run(ks, moves).Some?
    ensures Represents(TablesAfter(ks, moves), Run(ks, moves).value)
  {
    if moves != [] {
      var init, m := moves[..|moves| - 1], moves[|moves| - 1];
      TablesHoldTheRun(ks, init);
      var w := Run(ks, init).value;
      if m.Commit? {
        CommitKeepsRepresents(TablesAfter(ks, init), w, m.c, w.contexts[m.c], m.nows);
      } else {
        MoveKeepsRepresents(ks, TablesAfter(ks, init), w, m);
      }
    }
  }

  /** The two reads of a load, as SQL queries over the tables. */
  function Load(d: Database, id: int): AggregateState {
    var snapshot := MostRecent(d.tables.snapshots, id);
    AggregateState(id, snapshot, EventsAfter(ReadBack(d.tables.events, d.types.byId), id, SequenceOf(snapshot)))
  }

  /**
   End to end on the tables: an aggregate's sequences are 1, 2, 3 and so on, a load ends at the last of them, and the
   latest snapshot and the tail read from the tables rebuild the fold of every event that they hold for the aggregate.
   */
  lemma {:induction false} TablesLoadFullReplay<S(!new), E(!new)>(ks: Kinds<S, E>, moves: seq<Move<E>>, id: int)
    requires Run(ks, moves).Some?
    ensures var d := TablesAfter(ks, moves);
            var stream := Above(ReadBack(d.tables.events, d.types.byId), id, 0);
            && GapFree(stream)
            && LastSequence(Load(d, id)) == |stream|
            && (Faithful(ks(id)) && RunSavesMean(ks, moves, id) ==>
                  Rebuild(ks(id), ks(id).initial, Load(d, id)) == Replay(ks(id), ks(id).initial, stream))
            && (Faithful(ks(id)) && RunSavesAlike(ks, moves, id) ==>
                  && Rebuild(ks(id), ks(id).initial, Load(d, id)) == Replay(ks(id), ks(id).initial, stream)
                  && Replay(ks(id), ks(id).initial, stream).Some?)
  {
    TablesHoldTheRun(ks, moves);
    StreamsAreGapFree(ks, moves, id);
    LoadReadsShortTail(ks, moves, id);
    if Faithful(ks(id)) && RunSavesMean(ks, moves, id) {
      LoadIsFullReplay(ks, moves, id);
    }
    if Faithful(ks(id)) && RunSavesAlike(ks, moves, id) {
      AlikeLoadSucceeds(ks, moves, id);
    }
  }

  /**
   The memory engine reads its own way: the snapshot captured last, and the events in log order. Where it holds what a
   run left, it loads what SQL loads, so its loads are full replays too.
   */
  lemma {:induction false} MemoryLoadsAlike<S(!new), E(!new)>(ks: Kinds<S, E>, moves: seq<Move<E>>, id: int,
                                                              engine: MemoryStorageEngine)
    requires Run(ks, moves).Some?
    requires var d := TablesAfter(ks, moves);
             && engine.capturedEvents == d.tables.events && engine.capturedSnapshots == d.tables.snapshots
             && engine.eventTypesInv == d.types.byId
    ensures Loaded(engine, id) == Load(TablesAfter(ks, moves), id)
  {
    TablesHoldTheRun(ks, moves);
    RunKeepsCounted(ks, moves);
    LastCapturedIsMostRecent(ks, moves, id);
    var w := Run(ks, moves).value;
    var snapshot := MostRecent(w.snapshots, id);
    if snapshot.Some? {
      SnapshotCounted(ks, w, id);
    }
    LoadedSequence(w, id, snapshot);
    StreamCounts(w.rows, id);
    AboveIsSuffix(Events(w.rows), id, SequenceOf(snapshot));
  }
}
