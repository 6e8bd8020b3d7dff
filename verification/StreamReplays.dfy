/** What runs of concurrent contexts keep of the states of one aggregate: loading it is replaying all its events. */
module StreamReplays {
  import opened Wrappers
  import opened Records
  import opened EventStreams
  import opened Aggregates
  import opened Streams
  import opened StreamSequences
  import opened StreamTheorems
  import opened StreamMeanings

  // ---------------- What the run has to respect ----------------

  /** The time that the event is saved with does to the state it was applied to what its own time did. */
  ghost predicate Alike<S(!new), E(!new)>(k: Kind<S, E>, r: Row<S>, now: int) {
    Step(k, r.before, Stamp(r.event, now)) == Step(k, r.before, r.event)
  }

  // Every event that the move saves for the aggregate is alike.
  ghost predicate SavesAlike<S(!new), E(!new)>(ks: Kinds<S, E>, w: World<S>, m: Move<E>, id: int) {
    m.Commit? && m.c in w.contexts && |m.nows| == |w.contexts[m.c].captured| && Commits(w, w.contexts[m.c]) ==>
      var captured := w.contexts[m.c].captured;
      forall i :: 0 <= i < |captured| && captured[i].event.aggregateId == id ==> Alike(ks(id), captured[i], m.nows[i])
  }

  /** Every event that the run saves for the aggregate is alike. An event with a time of its own always is. */
  ghost predicate RunSavesAlike<S(!new), E(!new)>(ks: Kinds<S, E>, moves: seq<Move<E>>, id: int) {
    moves == [] ||
    (var init := moves[..|moves| - 1];
     && RunSavesAlike(ks, init, id)
     && (Run(ks, init).Some? ==> SavesAlike(ks, Run(ks, init).value, moves[|moves| - 1], id)))
  }

  // ---------------- Streams as chains of states ----------------

  // The state after the first n rows of a stream.
  ghost function StateAt<S(!new), E(!new)>(k: Kind<S, E>, stream: seq<Row<S>>, n: nat): S
    requires n <= |stream|
  {
    if n == 0 then k.initial else stream[n - 1].after
  }

  // The row's event takes the state before it to the state after it.
  ghost predicate Stepped<S(!new), E(!new)>(k: Kind<S, E>, r: Row<S>) {
    Step(k, r.before, r.event) == Some(r.after)
  }

  // Row i starts where row i - 1 ends.
  ghost predicate Joined<S(!new), E(!new)>(k: Kind<S, E>, stream: seq<Row<S>>, i: nat)
    requires i < |stream|
  {
    stream[i].before == StateAt(k, stream, i)
  }

  ghost predicate LinkAt<S(!new), E(!new)>(k: Kind<S, E>, stream: seq<Row<S>>, i: nat)
    requires i < |stream|
  {
    Joined(k, stream, i) && Stepped(k, stream[i])
  }

  ghost predicate Chained<S(!new), E(!new)>(k: Kind<S, E>, stream: seq<Row<S>>) {
    forall i :: 0 <= i < |stream| ==> LinkAt(k, stream, i)
  }

  lemma ReplayLast<S(!new), E(!new)>(k: Kind<S, E>, s: S, events: seq<SerializedEvent>, t: S, e: SerializedEvent)
    requires Replay(k, s, events) == Some(t)
    ensures Replay(k, s, events + [e]) == Step(k, t, e)
  {
    assert (events + [e])[..|events|] == events;
  }

  lemma SliceLast<T>(s: seq<T>, n: nat, m: nat)
    requires n < m <= |s|
    ensures s[n..m] == s[n..m - 1] + [s[m - 1]]
  {
  }

  lemma {:induction false} ChainReplays<S(!new), E(!new)>(k: Kind<S, E>, stream: seq<Row<S>>, n: nat, m: nat)
    requires Chained(k, stream) && n <= m <= |stream|
    ensures Replay(k, StateAt(k, stream, n), Events(stream)[n..m]) == Some(StateAt(k, stream, m))
    decreases m - n
  {
    if n < m {
      ChainReplays(k, stream, n, m - 1);
      var last := stream[m - 1].event;
      assert LinkAt(k, stream, m - 1);
      ReplayLast(k, StateAt(k, stream, n), Events(stream)[n..m - 1], StateAt(k, stream, m - 1), last);
      SliceLast(Events(stream), n, m);
    }
  }

  lemma TailOfChain<S(!new), E(!new)>(k: Kind<S, E>, stream: seq<Row<S>>, n: nat)
    requires Chained(k, stream) && n <= |stream|
    ensures Replay(k, StateAt(k, stream, n), Events(stream)[n..]) == Some(StateAt(k, stream, |stream|))
  {
    ChainReplays(k, stream, n, |stream|);
    var events := Events(stream);
    assert events[n..|events|] == events[n..];
  }

  // ---------------- The invariant ----------------

  // The row starts where an earlier row of its stream ends.
  ghost predicate Continues<S(!new), E(!new)>(k: Kind<S, E>, earlier: seq<Row<S>>, r: Row<S>) {
    || (r.event.sequence == 1 && r.before == k.initial)
    || exists p :: p in earlier && Precedes(p, r)
  }

  predicate Precedes<S(==)>(p: Row<S>, r: Row<S>) {
    PairOf(p.event) == (r.event.aggregateId, r.event.sequence - 1) && p.after == r.before
  }

  // What holds of row i, if it is the aggregate's, after the rows before it.
  ghost predicate ContinuesAt<S(!new), E(!new)>(k: Kind<S, E>, id: int, rows: seq<Row<S>>, i: nat)
    requires i < |rows|
  {
    rows[i].event.aggregateId == id ==> Continues(k, rows[..i], rows[i])
  }

  ghost predicate TableOk<S(!new), E(!new)>(k: Kind<S, E>, id: int, rows: seq<Row<S>>) {
    && (forall i :: 0 <= i < |rows| ==> ContinuesAt(k, id, rows, i))
    && (forall r :: r in rows && r.event.aggregateId == id ==> Stepped(k, r))
  }

  // What holds of staged row i, if it is the aggregate's, after all committed rows and those staged before it.
  ghost predicate StagedOk<S(!new), E(!new)>(k: Kind<S, E>, id: int, rows: seq<Row<S>>, captured: seq<Row<S>>, i: nat)
    requires i < |captured|
  {
    captured[i].event.aggregateId == id ==> Continues(k, rows + captured[..i], captured[i]) && Stepped(k, captured[i])
  }

  ghost predicate SnapshotOk<S(!new), E(!new)>(k: Kind<S, E>, rows: seq<Row<S>>, s: Snapshot) {
    exists r :: r in rows && SnapshotOf(k, r, s)
  }

  ghost predicate SnapshotsOk<S(!new), E(!new)>(k: Kind<S, E>, id: int, rows: seq<Row<S>>, snapshots: seq<Snapshot>) {
    forall s :: s in snapshots && s.aggregateId == id ==> SnapshotOk(k, rows, s)
  }

  // The object's state is the initial one or the one that some row, committed or staged, left.
  ghost predicate Backed<S(!new), E(!new)>(k: Kind<S, E>, id: int, rows: seq<Row<S>>, state: S, sequence: int) {
    || (sequence == 0 && state == k.initial)
    || exists r :: r in rows && PairOf(r.event) == (id, sequence) && r.after == state
  }

  ghost predicate ObjectOk<S(!new), E(!new)>(k: Kind<S, E>, id: int, rows: seq<Row<S>>, captured: seq<Row<S>>,
                                             o: Object<S>) {
    o.id == id ==>
      match o
      case Half(_, snapshot) => snapshot.Some? ==> SnapshotOk(k, rows, snapshot.value)
      case Live(_, state, sequence, _) => Backed(k, id, rows + captured, state, sequence)
  }

  ghost predicate CtxOk<S(!new), E(!new)>(k: Kind<S, E>, id: int, rows: seq<Row<S>>, ctx: Ctx<S>) {
    && (forall i :: 0 <= i < |ctx.captured| ==> StagedOk(k, id, rows, ctx.captured, i))
    && SnapshotsOk(k, id, rows + ctx.captured, ctx.snapshots)
    && forall slot :: slot in ctx.objects ==> ObjectOk(k, id, rows, ctx.captured, ctx.objects[slot])
  }

  ghost predicate StoreOk<S(!new), E(!new)>(k: Kind<S, E>, id: int, w: World<S>) {
    TableOk(k, id, w.rows) && SnapshotsOk(k, id, w.rows, w.snapshots)
  }

  ghost predicate Inv<S(!new), E(!new)>(k: Kind<S, E>, id: int, w: World<S>) {
    && StoreOk(k, id, w)
    && forall c :: c in w.contexts ==> CtxOk(k, id, w.rows, w.contexts[c])
  }

  // ---------------- From the table to the chain ----------------

  // A row sits in its stream where its sequence says.
  lemma RowInStream<S(!new)>(rows: seq<Row<S>>, r: Row<S>)
    requires Consecutive(Pairs(rows)) && r in rows
    ensures var stream := Stream(rows, r.event.aggregateId);
            1 <= r.event.sequence <= |stream| && stream[r.event.sequence - 1] == r
  {
    var id := r.event.aggregateId;
    StreamCounts(rows, id);
    StreamMembers(rows, id);
    var stream := Stream(rows, id);
    var i :| 0 <= i < |stream| && stream[i] == r;
    assert PairOf(stream[i].event) == (id, i + 1);
  }

  // Where every row continues an earlier one, row i of the stream starts where row i - 1 ends.
  lemma StreamJoined<S(!new), E(!new)>(k: Kind<S, E>, id: int, rows: seq<Row<S>>, m: nat)
    requires Consecutive(Pairs(rows)) && m < |rows| && ContinuesAt(k, id, rows, m) && rows[m].event.aggregateId == id
    ensures 1 <= rows[m].event.sequence <= |Stream(rows, id)|
    ensures Joined(k, Stream(rows, id), rows[m].event.sequence - 1)
  {
    var r := rows[m];
    RowInStream(rows, r);
    if !(r.event.sequence == 1 && r.before == k.initial) {
      var p :| p in rows[..m] && Precedes(p, r);
      assert p in rows;
      RowInStream(rows, p);
    }
  }

  // The place of a stream's row in the table.
  lemma StreamRow<S(!new)>(rows: seq<Row<S>>, id: int, i: nat) returns (m: nat)
    requires Consecutive(Pairs(rows)) && i < |Stream(rows, id)|
    ensures m < |rows| && rows[m] == Stream(rows, id)[i] && PairOf(rows[m].event) == (id, i + 1)
  {
    StreamMembers(rows, id);
    StreamCounts(rows, id);
    var r := Stream(rows, id)[i];
    assert r in Stream(rows, id);
    m :| 0 <= m < |rows| && rows[m] == r;
  }

  lemma StreamLinked<S(!new), E(!new)>(k: Kind<S, E>, id: int, rows: seq<Row<S>>, i: nat)
    requires Consecutive(Pairs(rows)) && TableOk(k, id, rows) && i < |Stream(rows, id)|
    ensures LinkAt(k, Stream(rows, id), i)
  {
    var m := StreamRow(rows, id, i);
    assert ContinuesAt(k, id, rows, m) && Stepped(k, rows[m]);
    StreamJoined(k, id, rows, m);
  }

  /** An aggregate's rows form a chain: each starts at the state where the one before it ends. */
  lemma TableIsChained<S(!new), E(!new)>(k: Kind<S, E>, id: int, rows: seq<Row<S>>)
    requires Consecutive(Pairs(rows)) && TableOk(k, id, rows)
    ensures Chained(k, Stream(rows, id))
  {
    forall i | 0 <= i < |Stream(rows, id)|
      ensures LinkAt(k, Stream(rows, id), i)
    {
      StreamLinked(k, id, rows, i);
    }
  }

  lemma TableReplays<S(!new), E(!new)>(ks: Kinds<S, E>, id: int, rows: seq<Row<S>>)
    requires Consecutive(Pairs(rows)) && TableOk(ks(id), id, rows)
    ensures FullReplay(ks, rows, id) == Some(StateAt(ks(id), Stream(rows, id), |Stream(rows, id)|))
  {
    var stream := Stream(rows, id);
    StreamCounts(rows, id);
    TableIsChained(ks(id), id, rows);
    TailOfChain(ks(id), stream, 0);
    assert Events(stream)[0..] == Events(stream);
  }

  // A snapshot sits at a row of the stream, and decodes to the state there.
  lemma SnapshotInStream<S(!new), E(!new)>(k: Kind<S, E>, id: int, rows: seq<Row<S>>, s: Snapshot)
    requires Consecutive(Pairs(rows)) && Faithful(k) && s.aggregateId == id && SnapshotOk(k, rows, s)
    ensures 1 <= s.sequence <= |Stream(rows, id)|
    ensures k.decodeState(s.state) == Some(Stream(rows, id)[s.sequence - 1].after)
  {
    var r :| r in rows && SnapshotOf(k, r, s);
    RowInStream(rows, r);
  }

  // On a chain, the state at a snapshot and the tail after it give the state at the end.
  lemma TailRebuilds<S(!new), E(!new)>(k: Kind<S, E>, stream: seq<Row<S>>, a: AggregateState)
    requires Chained(k, stream)
    requires var n := SequenceOf(a.snapshot);
             && 0 <= n <= |stream| && a.events == Events(stream)[n..]
             && Base(k, k.initial, a.snapshot) == Some(StateAt(k, stream, n))
    ensures Rebuild(k, k.initial, a) == Some(StateAt(k, stream, |stream|))
  {
    TailOfChain(k, stream, SequenceOf(a.snapshot));
  }

  /** Any snapshot of the stream, or none, plus the tail after it rebuilds what the full replay gives. */
  lemma TailReplays<S(!new), E(!new)>(ks: Kinds<S, E>, w: World<S>, id: int, snapshot: Option<Snapshot>)
    requires Consecutive(Pairs(w.rows)) && TableOk(ks(id), id, w.rows) && Faithful(ks(id))
    requires snapshot.Some? ==> snapshot.value.aggregateId == id && SnapshotOk(ks(id), w.rows, snapshot.value)
    ensures var stream := Stream(w.rows, id);
            && Rebuild(ks(id), ks(id).initial, Stored(w, id, snapshot)) == FullReplay(ks, w.rows, id)
            && FullReplay(ks, w.rows, id) == Some(StateAt(ks(id), stream, |stream|))
            && LastSequence(Stored(w, id, snapshot)) == |stream|
  {
    if snapshot.Some? {
      SnapshotFits(ks(id), id, w.rows, snapshot.value);
    }
    LoadedSequence(w, id, snapshot);
    TableIsChained(ks(id), id, w.rows);
    TableReplays(ks, id, w.rows);
    TailRebuilds(ks(id), Stream(w.rows, id), Stored(w, id, snapshot));
  }

  lemma SnapshotFits<S(!new), E(!new)>(k: Kind<S, E>, id: int, rows: seq<Row<S>>, s: Snapshot)
    requires Consecutive(Pairs(rows)) && Faithful(k) && s.aggregateId == id && SnapshotOk(k, rows, s)
    ensures HasPair(rows, id, s.sequence) && 1 <= s.sequence <= |Stream(rows, id)|
    ensures Base(k, k.initial, Some(s)) == Some(StateAt(k, Stream(rows, id), s.sequence))
  {
    SnapshotInStream(k, id, rows, s);
  }

  // ---------------- More rows keep what held ----------------

  lemma SnapshotsGrow<S(!new), E(!new)>(k: Kind<S, E>, id: int, rows: seq<Row<S>>, more: seq<Row<S>>,
                                        snapshots: seq<Snapshot>)
    requires SnapshotsOk(k, id, rows, snapshots) && forall p :: p in rows ==> p in more
    ensures SnapshotsOk(k, id, more, snapshots)
  {
    forall s | s in snapshots && s.aggregateId == id
      ensures SnapshotOk(k, more, s)
    {
      assert SnapshotOk(k, rows, s);
      var r :| r in rows && SnapshotOf(k, r, s);
      assert r in more;
    }
  }

  lemma ObjectGrows<S(!new), E(!new)>(k: Kind<S, E>, id: int, rows: seq<Row<S>>, rows': seq<Row<S>>,
                                      captured: seq<Row<S>>, captured': seq<Row<S>>, o: Object<S>)
    requires ObjectOk(k, id, rows, captured, o)
    requires forall p :: p in rows ==> p in rows'
    requires forall p :: p in captured ==> p in captured'
    ensures ObjectOk(k, id, rows', captured', o)
  {
    assert forall p :: p in rows + captured ==> p in rows' + captured';
  }

  lemma CtxGrows<S(!new), E(!new)>(k: Kind<S, E>, id: int, rows: seq<Row<S>>, rows': seq<Row<S>>, ctx: Ctx<S>)
    requires CtxOk(k, id, rows, ctx) && rows <= rows'
    ensures CtxOk(k, id, rows', ctx)
  {
    assert forall p :: p in rows ==> p in rows';
    forall i | 0 <= i < |ctx.captured|
      ensures StagedOk(k, id, rows', ctx.captured, i)
    {
      assert StagedOk(k, id, rows, ctx.captured, i);
      assert forall p :: p in rows + ctx.captured[..i] ==> p in rows' + ctx.captured[..i];
    }
    SnapshotsGrow(k, id, rows + ctx.captured, rows' + ctx.captured, ctx.snapshots);
    forall slot | slot in ctx.objects
      ensures ObjectOk(k, id, rows', ctx.captured, ctx.objects[slot])
    {
      ObjectGrows(k, id, rows, rows', ctx.captured, ctx.captured, ctx.objects[slot]);
    }
  }

  // ---------------- Loading ----------------

  lemma EndBacked<S(!new), E(!new)>(k: Kind<S, E>, id: int, rows: seq<Row<S>>)
    requires Consecutive(Pairs(rows))
    ensures Backed(k, id, rows, StateAt(k, Stream(rows, id), |Stream(rows, id)|), |Stream(rows, id)|)
  {
    StreamCounts(rows, id);
    StreamMembers(rows, id);
    var stream := Stream(rows, id);
    if stream != [] {
      assert stream[|stream| - 1] in stream;
    }
  }

  lemma LoadedOk<S(!new), E(!new)>(ks: Kinds<S, E>, id: int, w: World<S>, ctx: Ctx<S>, slot: int)
    requires Consecutive(Pairs(w.rows)) && StoreOk(ks(id), id, w) && CtxOk(ks(id), id, w.rows, ctx) && Faithful(ks(id))
    requires CtxCounted(ks, w.rows, ctx) && slot in ctx.objects && ctx.objects[slot].Half? && ctx.objects[slot].id == id
    ensures var o := ctx.objects[slot];
            var loaded := Stored(w, id, o.snapshot);
            var state := Rebuild(ks(id), ks(id).initial, loaded);
            state.Some? && Backed(ks(id), id, w.rows + ctx.captured, state.value, LastSequence(loaded))
  {
    var o := ctx.objects[slot];
    assert ObjectOk(ks(id), id, w.rows, ctx.captured, o) && ObjectCounted(w.rows, ctx.captured, o);
    TailReplays(ks, w, id, o.snapshot);
    EndBacked(ks(id), id, w.rows);
  }

  // ---------------- Applying ----------------

  lemma StagedExtendsOk<S(!new), E(!new)>(k: Kind<S, E>, id: int, rows: seq<Row<S>>, captured: seq<Row<S>>, r: Row<S>)
    requires forall i :: 0 <= i < |captured| ==> StagedOk(k, id, rows, captured, i)
    requires r.event.aggregateId == id ==> Continues(k, rows + captured, r) && Stepped(k, r)
    ensures forall i :: 0 <= i < |captured| + 1 ==> StagedOk(k, id, rows, captured + [r], i)
  {
    var all := captured + [r];
    forall i | 0 <= i < |all|
      ensures StagedOk(k, id, rows, all, i)
    {
      if i < |captured| {
        assert all[..i] == captured[..i] && StagedOk(k, id, rows, captured, i);
      } else {
        assert all[..i] == captured;
      }
    }
  }

  lemma ObjectsAdvanceOk<S(!new), E(!new)>(k: Kind<S, E>, id: int, rows: seq<Row<S>>, ctx: Ctx<S>, slot: int,
                                           r: Row<S>, ctx': Ctx<S>)
    requires CtxOk(k, id, rows, ctx) && Advances(ctx, slot, r, ctx')
    ensures forall s :: s in ctx'.objects ==> ObjectOk(k, id, rows, ctx'.captured, ctx'.objects[s])
  {
    assert r in rows + ctx'.captured;
    forall s | s in ctx'.objects
      ensures ObjectOk(k, id, rows, ctx'.captured, ctx'.objects[s])
    {
      if s != slot {
        ObjectGrows(k, id, rows, rows, ctx.captured, ctx'.captured, ctx.objects[s]);
      }
    }
  }

  // The context after the event, and what its new row and its new snapshot say.
  lemma AppliedOk<S(!new), E(!new)>(k: Kind<S, E>, ctx: Ctx<S>, slot: int, e: E, time: int, reference: string)
    returns (r: Row<S>)
    requires slot in ctx.objects && ctx.objects[slot].Live?
    requires AfterApply(k, ctx, slot, e, time, reference).Some?
    ensures var ctx' := AfterApply(k, ctx, slot, e, time, reference).value;
            && Advances(ctx, slot, r, ctx')
            && (Faithful(k) ==> Stepped(k, r))
            && forall s :: s in ctx'.snapshots ==>
                 s in ctx.snapshots || (s.aggregateId == ctx.objects[slot].id && SnapshotOf(k, r, s))
  {
    var o := ctx.objects[slot];
    var staging := Stage(k, o.id, o.state, o.sequence, e, time, reference);
    r := Row(staging.event, o.state, staging.state, slot);
  }

  lemma NewRowContinues<S(!new), E(!new)>(k: Kind<S, E>, id: int, rows: seq<Row<S>>, o: Object<S>, r: Row<S>)
    requires o.Live? && o.id == id && Backed(k, id, rows, o.state, o.sequence)
    requires r.before == o.state && PairOf(r.event) == (id, o.sequence + 1)
    ensures Continues(k, rows, r)
  {
    if !(o.sequence == 0 && o.state == k.initial) {
      var p :| p in rows && PairOf(p.event) == (id, o.sequence) && p.after == o.state;
      assert Precedes(p, r);
    }
  }

  lemma ApplyOk<S(!new), E(!new)>(ks: Kinds<S, E>, id: int, rows: seq<Row<S>>, ctx: Ctx<S>, slot: int, e: E, time: int,
                                  reference: string)
    requires CtxOk(ks(id), id, rows, ctx) && slot in ctx.objects && ctx.objects[slot].Live? && Faithful(ks(id))
    requires AfterApply(ks(ctx.objects[slot].id), ctx, slot, e, time, reference).Some?
    ensures CtxOk(ks(id), id, rows, AfterApply(ks(ctx.objects[slot].id), ctx, slot, e, time, reference).value)
  {
    var k, o := ks(id), ctx.objects[slot];
    var r := AppliedOk(ks(o.id), ctx, slot, e, time, reference);
    var ctx' := AfterApply(ks(o.id), ctx, slot, e, time, reference).value;
    assert ObjectOk(k, id, rows, ctx.captured, o);
    if o.id == id {
      NewRowContinues(k, id, rows + ctx.captured, o, r);
    }
    StagedExtendsOk(k, id, rows, ctx.captured, r);
    ObjectsAdvanceOk(k, id, rows, ctx, slot, r, ctx');
    SnapshotsGrow(k, id, rows + ctx.captured, rows + ctx'.captured, ctx.snapshots);
    assert r in rows + ctx'.captured;
  }

  // ---------------- Committing ----------------

  // Every staged row has a committed counterpart with the same pair and the same state after it.
  lemma StampedCounterpart<S(!new)>(rows: seq<Row<S>>, captured: seq<Row<S>>, nows: seq<int>, n: nat, r: Row<S>)
    returns (r': Row<S>)
    requires |nows| == |captured| && n <= |captured| && r in rows + captured[..n]
    ensures r' in rows + Stamped(captured, nows)[..n] && PairOf(r'.event) == PairOf(r.event) && r'.after == r.after
  {
    if r in captured[..n] {
      var i :| 0 <= i < n && captured[i] == r;
      r' := Stamped(captured, nows)[i];
      assert Stamped(captured, nows)[..n][i] == r';
    } else {
      r' := r;
    }
  }

  lemma StampedContinues<S(!new), E(!new)>(k: Kind<S, E>, id: int, rows: seq<Row<S>>, captured: seq<Row<S>>,
                                           nows: seq<int>, i: nat)
    requires |nows| == |captured| && i < |captured| && StagedOk(k, id, rows, captured, i)
    requires captured[i].event.aggregateId == id
    ensures Continues(k, rows + Stamped(captured, nows)[..i], Stamped(captured, nows)[i])
  {
    var r := captured[i];
    var r' := Stamped(captured, nows)[i];
    if !(r.event.sequence == 1 && r.before == k.initial) {
      var p :| p in rows + captured[..i] && Precedes(p, r);
      var p' := StampedCounterpart(rows, captured, nows, i, p);
      assert Precedes(p', r');
    }
  }

  lemma TakeOfConcat<T>(a: seq<T>, b: seq<T>, i: nat)
    requires i < |a| + |b|
    ensures i < |a| ==> (a + b)[..i] == a[..i] && (a + b)[i] == a[i]
    ensures |a| <= i ==> (a + b)[..i] == a + b[..i - |a|] && (a + b)[i] == b[i - |a|]
  {
  }

  /** Committed rows still continue their streams, whatever times they were saved with. */
  lemma CommittedContinue<S(!new), E(!new)>(k: Kind<S, E>, id: int, rows: seq<Row<S>>, captured: seq<Row<S>>,
                                            nows: seq<int>)
    requires forall i :: 0 <= i < |rows| ==> ContinuesAt(k, id, rows, i)
    requires |nows| == |captured| && forall i :: 0 <= i < |captured| ==> StagedOk(k, id, rows, captured, i)
    ensures var all := rows + Stamped(captured, nows); forall i :: 0 <= i < |all| ==> ContinuesAt(k, id, all, i)
  {
    var stamped := Stamped(captured, nows);
    var all := rows + stamped;
    forall i | 0 <= i < |all|
      ensures ContinuesAt(k, id, all, i)
    {
      TakeOfConcat(rows, stamped, i);
      if i < |rows| {
        assert ContinuesAt(k, id, rows, i);
      } else if captured[i - |rows|].event.aggregateId == id {
        assert StagedOk(k, id, rows, captured, i - |rows|);
        StampedContinues(k, id, rows, captured, nows, i - |rows|);
      }
    }
  }

  lemma CommittedStepped<S(!new), E(!new)>(k: Kind<S, E>, id: int, rows: seq<Row<S>>, captured: seq<Row<S>>,
                                           nows: seq<int>)
    requires forall r :: r in rows && r.event.aggregateId == id ==> Stepped(k, r)
    requires |nows| == |captured| && forall i :: 0 <= i < |captured| ==> StagedOk(k, id, rows, captured, i)
    requires forall i :: 0 <= i < |captured| && captured[i].event.aggregateId == id ==> Alike(k, captured[i], nows[i])
    ensures forall r :: r in rows + Stamped(captured, nows) && r.event.aggregateId == id ==> Stepped(k, r)
  {
    var stamped := Stamped(captured, nows);
    forall r | r in stamped && r.event.aggregateId == id
      ensures Stepped(k, r)
    {
      var i :| 0 <= i < |stamped| && stamped[i] == r;
      assert StagedOk(k, id, rows, captured, i) && Alike(k, captured[i], nows[i]);
    }
  }

  lemma CommittedSnapshots<S(!new), E(!new)>(k: Kind<S, E>, id: int, w: World<S>, ctx: Ctx<S>, nows: seq<int>)
    requires SnapshotsOk(k, id, w.rows, w.snapshots) && SnapshotsOk(k, id, w.rows + ctx.captured, ctx.snapshots)
    requires |nows| == |ctx.captured|
    ensures SnapshotsOk(k, id, w.rows + Stamped(ctx.captured, nows), w.snapshots + ctx.snapshots)
  {
    var all, snapshots := w.rows + Stamped(ctx.captured, nows), w.snapshots + ctx.snapshots;
    forall s | s in snapshots && s.aggregateId == id
      ensures SnapshotOk(k, all, s)
    {
      if s in w.snapshots {
        var r :| r in w.rows && SnapshotOf(k, r, s);
        assert r in all;
      } else {
        var r :| r in w.rows + ctx.captured && SnapshotOf(k, r, s);
        var n := |ctx.captured|;
        assert ctx.captured[..n] == ctx.captured && Stamped(ctx.captured, nows)[..n] == Stamped(ctx.captured, nows);
        var r' := StampedCounterpart(w.rows, ctx.captured, nows, n, r);
        assert SnapshotOf(k, r', s);
      }
    }
  }

  lemma CommitKeepsStoreOk<S(!new), E(!new)>(ks: Kinds<S, E>, id: int, w: World<S>, m: Move<E>)
    requires StoreOk(ks(id), id, w) && m.Commit? && m.c in w.contexts && CtxOk(ks(id), id, w.rows, w.contexts[m.c])
    requires |m.nows| == |w.contexts[m.c].captured| && SavesAlike(ks, w, m, id)
    ensures StoreOk(ks(id), id, AfterCommit(w, m.c, w.contexts[m.c], m.nows))
  {
    var ctx := w.contexts[m.c];
    if Commits(w, ctx) {
      CommittedContinue(ks(id), id, w.rows, ctx.captured, m.nows);
      CommittedStepped(ks(id), id, w.rows, ctx.captured, m.nows);
      CommittedSnapshots(ks(id), id, w, ctx, m.nows);
    }
  }

  // ---------------- Every move keeps the invariant ----------------

  lemma NewObjectOk<S(!new), E(!new)>(k: Kind<S, E>, id: int, rows: seq<Row<S>>, ctx: Ctx<S>, slot: int, o: Object<S>)
    requires CtxOk(k, id, rows, ctx) && ObjectOk(k, id, rows, ctx.captured, o)
    ensures CtxOk(k, id, rows, ctx.(objects := ctx.objects[slot := o]))
  {
  }

  lemma OwnOk<S(!new), E(!new)>(ks: Kinds<S, E>, id: int, w: World<S>, m: Move<E>)
    requires Counted(ks, w) && Inv(ks(id), id, w) && Faithful(ks(id)) && Next(ks, w, m).Some? && !m.Commit?
    ensures m.c in Next(ks, w, m).value.contexts ==> CtxOk(ks(id), id, w.rows, Next(ks, w, m).value.contexts[m.c])
  {
    if !m.Begin? {
      var ctx := w.contexts[m.c];
      assert CtxOk(ks(id), id, w.rows, ctx) && CtxCounted(ks, w.rows, ctx);
      match m
      case Create(c, slot, i) => NewObjectOk(ks(id), id, w.rows, ctx, slot, Live(i, ks(i).initial, 0, 0));
      case ReadSnapshot(c, slot, i) => NewObjectOk(ks(id), id, w.rows, ctx, slot, Half(i, MostRecent(w.snapshots, i)));
      case ReadEvents(c, slot) =>
        if ctx.objects[slot].id == id {
          LoadedOk(ks, id, w, ctx, slot);
        }
      case Apply(c, slot, e, time, reference) =>
        if AfterApply(ks(ctx.objects[slot].id), ctx, slot, e, time, reference).Some? {
          ApplyOk(ks, id, w.rows, ctx, slot, e, time, reference);
        }
      case _ =>
    }
  }

  lemma OthersOk<S(!new), E(!new)>(ks: Kinds<S, E>, id: int, w: World<S>, m: Move<E>)
    requires Inv(ks(id), id, w) && Next(ks, w, m).Some?
    ensures var v := Next(ks, w, m).value;
            && w.rows <= v.rows
            && (forall c :: c in v.contexts && c != m.c ==> CtxOk(ks(id), id, v.rows, v.contexts[c]))
            && (m.Commit? ==> m.c !in v.contexts)
  {
    var v := Next(ks, w, m).value;
    forall c | c in v.contexts && c != m.c
      ensures CtxOk(ks(id), id, v.rows, v.contexts[c])
    {
      assert v.contexts[c] == w.contexts[c];
      CtxGrows(ks(id), id, w.rows, v.rows, w.contexts[c]);
    }
  }

  lemma MoveKeepsStoreOk<S(!new), E(!new)>(ks: Kinds<S, E>, id: int, w: World<S>, m: Move<E>)
    requires Inv(ks(id), id, w) && SavesAlike(ks, w, m, id) && Next(ks, w, m).Some?
    ensures StoreOk(ks(id), id, Next(ks, w, m).value)
    ensures !m.Commit? ==> Next(ks, w, m).value.rows == w.rows
  {
    if m.Commit? {
      CommitKeepsStoreOk(ks, id, w, m);
    }
  }

  lemma MoveKeepsInv<S(!new), E(!new)>(ks: Kinds<S, E>, id: int, w: World<S>, m: Move<E>)
    requires Counted(ks, w) && Inv(ks(id), id, w) && Faithful(ks(id))
    requires SavesAlike(ks, w, m, id) && Next(ks, w, m).Some?
    ensures Inv(ks(id), id, Next(ks, w, m).value)
  {
    MoveKeepsStoreOk(ks, id, w, m);
    OthersOk(ks, id, w, m);
    if !m.Commit? {
      OwnOk(ks, id, w, m);
    }
  }

  /**
   Every run that saves the aggregate's events alike keeps the states of its rows, objects and snapshots connected.
   */
  lemma {:induction false} RunKeepsInv<S(!new), E(!new)>(ks: Kinds<S, E>, moves: seq<Move<E>>, id: int)
    requires Faithful(ks(id)) && RunSavesAlike(ks, moves, id) && Run(ks, moves).Some?
    ensures Inv(ks(id), id, Run(ks, moves).value)
  {
    if moves != [] {
      var init := moves[..|moves| - 1];
      RunKeepsInv(ks, init, id);
      RunKeepsCounted(ks, init);
      MoveKeepsInv(ks, id, Run(ks, init).value, moves[|moves| - 1]);
    }
  }

  // ---------------- Loads are full replays ----------------

  /**
   Where every event of the aggregate was saved alike, loading it fresh from its latest snapshot and the tail after it
   also succeeds: it gives the state and sequence of folding all its committed events.
   */
  lemma {:induction false} AlikeLoadSucceeds<S(!new), E(!new)>(ks: Kinds<S, E>, moves: seq<Move<E>>, id: int)
    requires Faithful(ks(id)) && RunSavesAlike(ks, moves, id) && Run(ks, moves).Some?
    ensures var w := Run(ks, moves).value;
            && FullReplay(ks, w.rows, id).Some?
            && Rebuild(ks(id), ks(id).initial, LoadNow(w, id)) == FullReplay(ks, w.rows, id)
            && LastSequence(LoadNow(w, id)) == Length(w, id)
  {
    RunKeepsInv(ks, moves, id);
    RunKeepsCounted(ks, moves);
    var w := Run(ks, moves).value;
    TailReplays(ks, w, id, MostRecent(w.snapshots, id));
    StreamCounts(w.rows, id);
  }

  /**
   So does a torn load: with the snapshot read at one moment of a run and the events at any later one, the
   result is the full replay of the stream as it was when the events were read.
   */
  lemma {:induction false} AlikeTornLoadSucceeds<S(!new), E(!new)>(ks: Kinds<S, E>, moves: seq<Move<E>>, n: nat,
                                                                   id: int)
    requires Faithful(ks(id)) && RunSavesAlike(ks, moves, id) && n <= |moves| && Run(ks, moves).Some?
    ensures Run(ks, moves[..n]).Some?
    ensures var then_ := Run(ks, moves[..n]).value;
            var w := Run(ks, moves).value;
            var loaded := Stored(w, id, MostRecent(then_.snapshots, id));
            && Rebuild(ks(id), ks(id).initial, loaded) == FullReplay(ks, w.rows, id)
            && FullReplay(ks, w.rows, id).Some?
            && LastSequence(loaded) == Length(w, id)
  {
    RunGrows(ks, moves, n);
    RunKeepsInv(ks, moves, id);
    RunKeepsCounted(ks, moves);
    var then_ := Run(ks, moves[..n]).value;
    var w := Run(ks, moves).value;
    TailReplays(ks, w, id, MostRecent(then_.snapshots, id));
    StreamCounts(w.rows, id);
  }
}
