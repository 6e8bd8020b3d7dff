/** The SQLite engine's writes: rows inserted one at a time inside a transaction, under the UNIQUE constraints. */
module SqliteEngine {
  import opened Wrappers
  import opened Records
  import opened EventStreams

  datatype Tables = Tables(events: seq<StorageEvent>, snapshots: seq<Snapshot>)

  /** What a callback staged, with its event types resolved. */
  datatype Work = Work(events: seq<StorageEvent>, snapshots: seq<Snapshot>)

  datatype ContextResult = Completed | Failed | Panicked

  function EventPairs(events: seq<StorageEvent>): (pairs: seq<Pair>)
    ensures |pairs| == |events|
    ensures forall i :: 0 <= i < |events| ==> pairs[i] == (events[i].aggregateId, events[i].sequence)
  {
    seq(|events|, i requires 0 <= i < |events| => (events[i].aggregateId, events[i].sequence))
  }

  // All the rows pass both UNIQUE constraints.
  predicate Writable(t: Tables, w: Work) {
    && Insertable(EventPairs(t.events), EventPairs(w.events))
    && Insertable(SnapshotPairs(t.snapshots), SnapshotPairs(w.snapshots))
  }

  function Written(t: Tables, w: Work): Tables {
    Tables(t.events + w.events, t.snapshots + w.snapshots)
  }

  // Neither table has two rows with one (aggregate, sequence) pair.
  predicate NoDuplicates(t: Tables) {
    Distinct(EventPairs(t.events)) && Distinct(SnapshotPairs(t.snapshots))
  }

  lemma EventPairsConcat(a: seq<StorageEvent>, b: seq<StorageEvent>)
    ensures EventPairs(a + b) == EventPairs(a) + EventPairs(b)
  {
  }

  /** The work can be written exactly when the tables with all of it are still free of duplicates. */
  lemma WritableExactly(t: Tables, w: Work)
    requires NoDuplicates(t)
    ensures Writable(t, w) <==> NoDuplicates(Written(t, w))
  {
    EventPairsConcat(t.events, w.events);
    SnapshotPairsConcat(t.snapshots, w.snapshots);
    InsertableExact(EventPairs(t.events), EventPairs(w.events));
    InsertableExact(SnapshotPairs(t.snapshots), SnapshotPairs(w.snapshots));
  }

  // The first row that fails makes the whole insert fail.
  lemma {:induction false} InsertFails(present: seq<Pair>, added: seq<Pair>, n: nat)
    requires n <= |added| && !Insertable(present, added[..n])
    ensures !Insertable(present, added)
    decreases |added| - n
  {
    if n == |added| {
      assert added[..n] == added;
    } else {
      assert added[..n + 1][..n] == added[..n];
      InsertFails(present, added, n + 1);
    }
  }

  class SqliteStorageEngine {
    var committed: Tables

    constructor ()
      ensures committed == Tables([], [])
    {
      committed := Tables([], []);
    }

    /** Starts the one writing transaction; it sees what is committed. */
    method Begin() returns (tx: Transaction)
      ensures fresh(tx) && tx.engine == this && tx.tables == committed && !tx.done
    {
      tx := new Transaction(this);
    }

    /** Inserts every event, then every snapshot, and stops at the first row that is already there. */
    method WriteState(tx: Transaction, work: Work) returns (ok: bool)
      modifies tx
      ensures tx.done == old(tx.done)
      ensures ok <==> Writable(old(tx.tables), work)
      ensures ok ==> tx.tables == Written(old(tx.tables), work)
      ensures !ok ==>
                exists n, m :: 0 <= n <= |work.events| && 0 <= m <= |work.snapshots| && (n < |work.events| ==> m == 0)
                               && tx.tables == Written(old(tx.tables), Work(work.events[..n], work.snapshots[..m]))
    {
      var eventsOk := InsertEvents(tx, work.events);
      if !eventsOk {
        ghost var n :| 0 <= n < |work.events| && tx.tables.events == old(tx.tables.events) + work.events[..n];
        assert tx.tables == Written(old(tx.tables), Work(work.events[..n], work.snapshots[..0]));
        return false;
      }
      ok := InsertSnapshots(tx, work.snapshots);
      assert work.events[..|work.events|] == work.events;
    }

    method InsertEvents(tx: Transaction, events: seq<StorageEvent>) returns (ok: bool)
      modifies tx
      ensures tx.done == old(tx.done) && tx.tables.snapshots == old(tx.tables.snapshots)
      ensures ok <==> Insertable(EventPairs(old(tx.tables.events)), EventPairs(events))
      ensures ok ==> tx.tables.events == old(tx.tables.events) + events
      ensures !ok ==> exists n :: 0 <= n < |events| && tx.tables.events == old(tx.tables.events) + events[..n]
    {
      ghost var present := EventPairs(tx.tables.events);
      for i := 0 to |events|
        invariant tx.done == old(tx.done) && tx.tables.snapshots == old(tx.tables.snapshots)
        invariant tx.tables.events == old(tx.tables.events) + events[..i]
        invariant Insertable(present, EventPairs(events)[..i])
      {
        ghost var pairs := EventPairs(events);
        assert EventPairs(tx.tables.events) == present + pairs[..i] by {
          EventPairsConcat(old(tx.tables.events), events[..i]);
          assert EventPairs(events[..i]) == pairs[..i];
        }
        assert pairs[..i + 1][..i] == pairs[..i];
        var added := tx.AddEvent(events[i]);
        if !added {
          InsertFails(present, pairs, i + 1);
          return false;
        }
      }
      assert EventPairs(events)[..|events|] == EventPairs(events) && events[..|events|] == events;
      return true;
    }

    method InsertSnapshots(tx: Transaction, snapshots: seq<Snapshot>) returns (ok: bool)
      modifies tx
      ensures tx.done == old(tx.done) && tx.tables.events == old(tx.tables.events)
      ensures ok <==> Insertable(SnapshotPairs(old(tx.tables.snapshots)), SnapshotPairs(snapshots))
      ensures ok ==> tx.tables.snapshots == old(tx.tables.snapshots) + snapshots
      ensures !ok ==>
                exists n :: 0 <= n < |snapshots| && tx.tables.snapshots == old(tx.tables.snapshots) + snapshots[..n]
    {
      ghost var present := SnapshotPairs(tx.tables.snapshots);
      for i := 0 to |snapshots|
        invariant tx.done == old(tx.done) && tx.tables.events == old(tx.tables.events)
        invariant tx.tables.snapshots == old(tx.tables.snapshots) + snapshots[..i]
        invariant Insertable(present, SnapshotPairs(snapshots)[..i])
      {
        ghost var pairs := SnapshotPairs(snapshots);
        assert SnapshotPairs(tx.tables.snapshots) == present + pairs[..i] by {
          SnapshotPairsConcat(old(tx.tables.snapshots), snapshots[..i]);
          assert SnapshotPairs(snapshots[..i]) == pairs[..i];
        }
        assert pairs[..i + 1][..i] == pairs[..i];
        var added := tx.AddSnapshot(snapshots[i]);
        if !added {
          InsertFails(present, pairs, i + 1);
          return false;
        }
      }
      assert SnapshotPairs(snapshots)[..|snapshots|] == SnapshotPairs(snapshots)
             && snapshots[..|snapshots|] == snapshots;
      return true;
    }

    /**
     Runs a context. `begins` and `commits` say whether the database lets the transaction start and commit; `work` is
     None when the callback or the lookup of an event type returns an error. Either everything is committed or nothing.
     */
    method WithContext(begins: bool, work: Option<Work>, commits: bool) returns (ok: bool)
      modifies this
      ensures ok <==> begins && work.Some? && Writable(old(committed), work.value) && commits
      ensures committed == if ok then Written(old(committed), work.value) else old(committed)
      ensures old(NoDuplicates(committed)) ==> NoDuplicates(committed)
    {
      if !begins {
        return false;
      }
      var tx := Begin();
      ok := Finish(tx, work, commits);
      tx.Rollback();
    }

    /** The same with a result. The rollback is deferred before the transaction is known to be there. */
    method InContext(begins: bool, work: Option<Work>, commits: bool) returns (r: ContextResult)
      modifies this
      ensures r == Panicked <==> !begins
      ensures r == Completed <==> begins && work.Some? && Writable(old(committed), work.value) && commits
      ensures committed == if r == Completed then Written(old(committed), work.value) else old(committed)
    {
      if !begins {
        return Panicked;
      }
      var tx := Begin();
      var ok := Finish(tx, work, commits);
      tx.Rollback();
      return if ok then Completed else Failed;
    }

    /** Saves what the callback staged and commits. */
    method Finish(tx: Transaction, work: Option<Work>, commits: bool) returns (ok: bool)
      requires tx.engine == this && tx.tables == committed && !tx.done
      modifies this, tx
      ensures ok <==> work.Some? && Writable(old(committed), work.value) && commits
      ensures ok ==> tx.done && committed == Written(old(committed), work.value)
      ensures !ok ==> committed == old(committed)
      ensures old(NoDuplicates(committed)) ==> NoDuplicates(committed)
    {
      if work.None? {
        return false;
      }
      var saved := WriteState(tx, work.value);
      if !saved {
        return false;
      }
      if old(NoDuplicates(committed)) {
        WritableExactly(old(committed), work.value);
      }
      ok := tx.Commit(commits);
    }
  }

  class Transaction {
    const engine: SqliteStorageEngine
    var tables: Tables
    var done: bool

    constructor (engine: SqliteStorageEngine)
      ensures this.engine == engine && tables == engine.committed && !done
    {
      this.engine, tables, done := engine, engine.committed, false;
    }

    method AddEvent(e: StorageEvent) returns (ok: bool)
      modifies `tables
      ensures ok <==> (e.aggregateId, e.sequence) !in EventPairs(old(tables.events))
      ensures tables == if ok then old(tables).(events := old(tables.events) + [e]) else old(tables)
    {
      for i := 0 to |tables.events|
        invariant (e.aggregateId, e.sequence) !in EventPairs(tables.events)[..i]
        invariant tables == old(tables)
      {
        assert EventPairs(tables.events)[..i + 1] == EventPairs(tables.events)[..i] + [EventPairs(tables.events)[i]];
        if tables.events[i].aggregateId == e.aggregateId && tables.events[i].sequence == e.sequence {
          return false;
        }
      }
      assert EventPairs(tables.events)[..|tables.events|] == EventPairs(tables.events);
      tables := tables.(events := tables.events + [e]);
      return true;
    }

    method AddSnapshot(s: Snapshot) returns (ok: bool)
      modifies `tables
      ensures ok <==> (s.aggregateId, s.sequence) !in SnapshotPairs(old(tables.snapshots))
      ensures tables == if ok then old(tables).(snapshots := old(tables.snapshots) + [s]) else old(tables)
    {
      for i := 0 to |tables.snapshots|
        invariant (s.aggregateId, s.sequence) !in SnapshotPairs(tables.snapshots)[..i]
        invariant tables == old(tables)
      {
        assert SnapshotPairs(tables.snapshots)[..i + 1]
               == SnapshotPairs(tables.snapshots)[..i] + [SnapshotPairs(tables.snapshots)[i]];
        if tables.snapshots[i].aggregateId == s.aggregateId && tables.snapshots[i].sequence == s.sequence {
          return false;
        }
      }
      assert SnapshotPairs(tables.snapshots)[..|tables.snapshots|] == SnapshotPairs(tables.snapshots);
      tables := tables.(snapshots := tables.snapshots + [s]);
      return true;
    }

    method Commit(allowed: bool) returns (ok: bool)
      modifies this, engine
      ensures tables == old(tables) && done
      ensures ok <==> !old(done) && allowed
      ensures engine.committed == if ok then tables else old(engine.committed)
    {
      ok := !done && allowed;
      if ok {
        engine.committed := tables;
      }
      done := true;
    }

    /** Drops what was written. After a commit there is nothing left to drop. */
    method Rollback()
      modifies this
      ensures done && tables == if old(done) then old(tables) else engine.committed
    {
      if !done {
        tables := engine.committed;
      }
      done := true;
    }
  }
}
