/**
 What snapshots say, and exactly when they go on saying it: a snapshot stands for the fold of the events saved before
 it, for every frequency and whatever times the events are saved with.
 */
module StreamMeanings {
  import opened Wrappers
  import opened Records
  import opened EventStreams
  import opened Aggregates
  import opened Streams
  import opened StreamSequences
  import opened StreamTheorems

  // ---------------- What a snapshot says ----------------

  // The fold of the aggregate's first q saved events.
  ghost function Fold<S(!new), E(!new)>(k: Kind<S, E>, rows: seq<Row<S>>, id: int, q: nat): Option<S>
    requires q <= |Stream(rows, id)|
  {
    Replay(k, k.initial, Events(Stream(rows, id))[..q])
  }

  /** The snapshot decodes to the fold of its aggregate's saved events up to its sequence. */
  ghost predicate Means<S(!new), E(!new)>(k: Kind<S, E>, id: int, rows: seq<Row<S>>, s: Snapshot) {
    0 <= s.sequence <= |Stream(rows, id)| && k.decodeState(s.state) == Fold(k, rows, id, s.sequence)
  }

  ghost predicate SnapshotsMean<S(!new), E(!new)>(ks: Kinds<S, E>, w: World<S>, id: int) {
    forall s :: s in w.snapshots && s.aggregateId == id ==> Means(ks(id), id, w.rows, s)
  }

  // ---------------- What a commit has to respect ----------------

  /** The aggregate's events as a commit saves them. */
  ghost function Saved<S(!new)>(captured: seq<Row<S>>, nows: seq<int>, id: int): (saved: seq<SerializedEvent>)
    requires |nows| == |captured|
    ensures |saved| == |Stream(captured, id)|
  {
    StampedStream(captured, nows, id);
    Events(Stream(Stamped(captured, nows), id))
  }

  // Where a snapshot is due, the events as saved lead to the state that the context had there.
  ghost predicate MeansAt<S(!new), E(!new)>(k: Kind<S, E>, own: seq<Row<S>>, saved: seq<SerializedEvent>, j: nat)
    requires j < |own| == |saved|
  {
    Due(k, own[j].event.sequence) ==> Replay(k, own[0].before, saved[..j + 1]) == Some(own[j].after)
  }

  /** At every row where a snapshot is due the events as saved lead to the state that the context had. */
  ghost predicate CommitMeans<S(!new), E(!new)>(k: Kind<S, E>, id: int, captured: seq<Row<S>>, nows: seq<int>)
    requires |nows| == |captured|
  {
    var own, saved := Stream(captured, id), Saved(captured, nows, id);
    forall j :: 0 <= j < |own| ==> MeansAt(k, own, saved, j)
  }

  ghost predicate SavesMean<S(!new), E(!new)>(ks: Kinds<S, E>, w: World<S>, m: Move<E>, id: int) {
    m.Commit? && m.c in w.contexts && |m.nows| == |w.contexts[m.c].captured| && Commits(w, w.contexts[m.c]) ==>
      CommitMeans(ks(id), id, w.contexts[m.c].captured, m.nows)
  }

  /** Every successful commit of the run does so. Between due snapshots times may change as they like. */
  ghost predicate RunSavesMean<S(!new), E(!new)>(ks: Kinds<S, E>, moves: seq<Move<E>>, id: int) {
    moves == [] ||
    (var init := moves[..|moves| - 1];
     && RunSavesMean(ks, init, id)
     && (Run(ks, init).Some? ==> SavesMean(ks, Run(ks, init).value, moves[|moves| - 1], id)))
  }

  // ---------------- Folds ----------------

  lemma {:induction false} ReplayConcat<S(!new), E(!new)>(k: Kind<S, E>, s: S, a: seq<SerializedEvent>,
                                                          b: seq<SerializedEvent>)
    ensures Replay(k, s, a + b)
            == if Replay(k, s, a).Some? then Replay(k, Replay(k, s, a).value, b) else None
    decreases |b|
  {
    if b == [] {
      assert a + b == a;
    } else {
      var init := b[..|b| - 1];
      ReplayConcat(k, s, a, init);
      assert (a + b)[..|a + b| - 1] == a + init;
    }
  }

  // Saving changes no pair and nothing but times.
  lemma {:induction false} StampedStream<S(!new)>(captured: seq<Row<S>>, nows: seq<int>, id: int)
    requires |nows| == |captured|
    ensures var own, stamped := Stream(captured, id), Stream(Stamped(captured, nows), id);
            && |stamped| == |own|
            && forall j :: 0 <= j < |own| ==> PairOf(stamped[j].event) == PairOf(own[j].event)
  {
    if captured != [] {
      var n := |captured| - 1;
      StampedStream(captured[..n], nows[..n], id);
      assert Stamped(captured, nows)[..n] == Stamped(captured[..n], nows[..n]);
    }
  }

  lemma StreamGrows<S(!new)>(rows: seq<Row<S>>, longer: seq<Row<S>>, id: int)
    requires rows <= longer
    ensures Stream(rows, id) <= Stream(longer, id)
  {
    assert longer == rows + longer[|rows|..];
    StreamConcat(rows, longer[|rows|..], id);
  }

  lemma FoldGrows<S(!new), E(!new)>(k: Kind<S, E>, rows: seq<Row<S>>, longer: seq<Row<S>>, id: int, q: nat)
    requires rows <= longer && q <= |Stream(rows, id)|
    ensures q <= |Stream(longer, id)| && Fold(k, longer, id, q) == Fold(k, rows, id, q)
  {
    StreamGrows(rows, longer, id);
    assert Events(Stream(longer, id))[..q] == Events(Stream(rows, id))[..q];
  }

  lemma FullReplayOfStream<S(!new), E(!new)>(ks: Kinds<S, E>, rows: seq<Row<S>>, id: int)
    requires Consecutive(Pairs(rows))
    ensures FullReplay(ks, rows, id) == Replay(ks(id), ks(id).initial, Events(Stream(rows, id)))
  {
    StreamCounts(rows, id);
  }

  lemma FoldIsFullReplay<S(!new), E(!new)>(ks: Kinds<S, E>, rows: seq<Row<S>>, id: int)
    requires Consecutive(Pairs(rows))
    ensures Fold(ks(id), rows, id, |Stream(rows, id)|) == FullReplay(ks, rows, id)
  {
    FullReplayOfStream(ks, rows, id);
    assert Events(Stream(rows, id))[..|Stream(rows, id)|] == Events(Stream(rows, id));
  }

  lemma RebuildFolds<S(!new), E(!new)>(k: Kind<S, E>, a: AggregateState, events: seq<SerializedEvent>)
    requires 0 <= SequenceOf(a.snapshot) <= |events| && a.events == events[SequenceOf(a.snapshot)..]
    requires a.snapshot.Some? ==>
               k.decodeState(a.snapshot.value.state) == Replay(k, k.initial, events[..SequenceOf(a.snapshot)])
    ensures Rebuild(k, k.initial, a) == Replay(k, k.initial, events)
  {
    var q := SequenceOf(a.snapshot);
    assert events == events[..q] + events[q..];
    ReplayConcat(k, k.initial, events[..q], events[q..]);
  }

  // A snapshot that means what it says, or none, and the tail after it give the fold of everything.
  lemma MeantLoad<S(!new), E(!new)>(ks: Kinds<S, E>, w: World<S>, id: int, snapshot: Option<Snapshot>)
    requires Consecutive(Pairs(w.rows))
    requires snapshot.Some? ==>
               HasPair(w.rows, id, snapshot.value.sequence) && Means(ks(id), id, w.rows, snapshot.value)
    ensures Rebuild(ks(id), ks(id).initial, Stored(w, id, snapshot)) == FullReplay(ks, w.rows, id)
    ensures LastSequence(Stored(w, id, snapshot)) == |Stream(w.rows, id)|
  {
    LoadedSequence(w, id, snapshot);
    FullReplayOfStream(ks, w.rows, id);
    RebuildFolds(ks(id), Stored(w, id, snapshot), Events(Stream(w.rows, id)));
  }

  // ---------------- What a context has staged ----------------

  // The snapshot is the encoded state after a row.
  ghost predicate SnapshotOf<S(!new), E(!new)>(k: Kind<S, E>, r: Row<S>, s: Snapshot) {
    PairOf(r.event) == (s.aggregateId, s.sequence) && k.encodeState(r.after) == Some(s.state)
  }

  ghost predicate TakenAt<S(!new), E(!new)>(k: Kind<S, E>, captured: seq<Row<S>>, s: Snapshot) {
    Due(k, s.sequence) && exists r :: r in captured && SnapshotOf(k, r, s)
  }

  ghost predicate HasSnapshotOf<S(!new), E(!new)>(k: Kind<S, E>, snapshots: seq<Snapshot>, r: Row<S>) {
    exists s :: s in snapshots && SnapshotOf(k, r, s)
  }

  // The staged snapshots of the aggregate are those of its staged rows that are due.
  ghost predicate SnapshotsTaken<S(!new), E(!new)>(k: Kind<S, E>, id: int, ctx: Ctx<S>) {
    && (forall s {:trigger TakenAt(k, ctx.captured, s)} :: s in ctx.snapshots && s.aggregateId == id ==>
          TakenAt(k, ctx.captured, s))
    && (forall r {:trigger HasSnapshotOf(k, ctx.snapshots, r)} ::
          r in ctx.captured && r.event.aggregateId == id && Due(k, r.event.sequence) ==>
            HasSnapshotOf(k, ctx.snapshots, r))
  }

  // A fresh object holds what was saved when it was loaded.
  ghost predicate ObjectMeans<S(!new), E(!new)>(k: Kind<S, E>, id: int, rows: seq<Row<S>>, o: Object<S>) {
    o.id == id ==>
      match o
      case Half(_, snapshot) => snapshot.Some? ==> Means(k, id, rows, snapshot.value)
      case Live(_, state, sequence, base) =>
        sequence == base ==> 0 <= base <= |Stream(rows, id)| && Fold(k, rows, id, base) == Some(state)
  }

  // The first event of an object was applied to what was saved when the object was loaded.
  ghost predicate FirstMeans<S(!new), E(!new)>(k: Kind<S, E>, id: int, rows: seq<Row<S>>, ctx: Ctx<S>, r: Row<S>) {
    r.event.aggregateId == id && r.slot in ctx.objects && ctx.objects[r.slot].Live?
    && r.event.sequence == ctx.objects[r.slot].base + 1 ==>
      var base := ctx.objects[r.slot].base;
      0 <= base <= |Stream(rows, id)| && Fold(k, rows, id, base) == Some(r.before)
  }

  ghost predicate CtxMeans<S(!new), E(!new)>(k: Kind<S, E>, id: int, rows: seq<Row<S>>, ctx: Ctx<S>) {
    && (forall slot :: slot in ctx.objects ==> ObjectMeans(k, id, rows, ctx.objects[slot]))
    && (forall r :: r in ctx.captured ==> FirstMeans(k, id, rows, ctx, r))
    && SnapshotsTaken(k, id, ctx)
  }

  ghost predicate AllMean<S(!new), E(!new)>(ks: Kinds<S, E>, id: int, w: World<S>) {
    SnapshotsMean(ks, w, id) && forall c :: c in w.contexts ==> CtxMeans(ks(id), id, w.rows, w.contexts[c])
  }

  // ---------------- More rows change no meaning ----------------

  lemma MeansGrows<S(!new), E(!new)>(k: Kind<S, E>, id: int, rows: seq<Row<S>>, longer: seq<Row<S>>, s: Snapshot)
    requires rows <= longer && Means(k, id, rows, s)
    ensures Means(k, id, longer, s)
  {
    FoldGrows(k, rows, longer, id, s.sequence);
  }

  lemma ObjectMeansGrows<S(!new), E(!new)>(k: Kind<S, E>, id: int, rows: seq<Row<S>>, longer: seq<Row<S>>, o: Object<S>)
    requires rows <= longer && ObjectMeans(k, id, rows, o)
    ensures ObjectMeans(k, id, longer, o)
  {
    if o.id == id {
      if o.Half? && o.snapshot.Some? {
        MeansGrows(k, id, rows, longer, o.snapshot.value);
      }
      if o.Live? && o.sequence == o.base {
        FoldGrows(k, rows, longer, id, o.base);
      }
    }
  }

  lemma FirstMeansGrows<S(!new), E(!new)>(k: Kind<S, E>, id: int, rows: seq<Row<S>>, longer: seq<Row<S>>, ctx: Ctx<S>,
                                          r: Row<S>)
    requires rows <= longer && FirstMeans(k, id, rows, ctx, r)
    ensures FirstMeans(k, id, longer, ctx, r)
  {
    if r.event.aggregateId == id && r.slot in ctx.objects && ctx.objects[r.slot].Live?
       && r.event.sequence == ctx.objects[r.slot].base + 1 {
      FoldGrows(k, rows, longer, id, ctx.objects[r.slot].base);
    }
  }

  lemma CtxMeansGrows<S(!new), E(!new)>(k: Kind<S, E>, id: int, rows: seq<Row<S>>, longer: seq<Row<S>>, ctx: Ctx<S>)
    requires rows <= longer && CtxMeans(k, id, rows, ctx)
    ensures CtxMeans(k, id, longer, ctx)
  {
    forall slot | slot in ctx.objects
      ensures ObjectMeans(k, id, longer, ctx.objects[slot])
    {
      ObjectMeansGrows(k, id, rows, longer, ctx.objects[slot]);
    }
    forall r | r in ctx.captured
      ensures FirstMeans(k, id, longer, ctx, r)
    {
      FirstMeansGrows(k, id, rows, longer, ctx, r);
    }
  }

  // ---------------- Loading and creating ----------------

  lemma NewObjectMeans<S(!new), E(!new)>(k: Kind<S, E>, id: int, rows: seq<Row<S>>, ctx: Ctx<S>, slot: int,
                                         o: Object<S>)
    requires CtxMeans(k, id, rows, ctx) && RowsOwned(ctx) && !Dirty(ctx, slot) && ObjectMeans(k, id, rows, o)
    ensures CtxMeans(k, id, rows, ctx.(objects := ctx.objects[slot := o]))
  {
    var ctx' := ctx.(objects := ctx.objects[slot := o]);
    forall r | r in ctx'.captured
      ensures FirstMeans(k, id, rows, ctx', r)
    {
      assert Owned(ctx, r) && FirstMeans(k, id, rows, ctx, r);
    }
  }

  lemma CreatedMeans<S(!new), E(!new)>(k: Kind<S, E>, id: int, rows: seq<Row<S>>)
    ensures ObjectMeans(k, id, rows, Live(id, k.initial, 0, 0))
  {
    assert Events(Stream(rows, id))[..0] == [];
  }

  lemma ReadMeans<S(!new), E(!new)>(ks: Kinds<S, E>, w: World<S>, id: int)
    requires SnapshotsMean(ks, w, id)
    ensures ObjectMeans(ks(id), id, w.rows, Half(id, MostRecent(w.snapshots, id)))
  {
  }

  // An object whose load succeeds holds the fold of everything.
  lemma LoadedMeans<S(!new), E(!new)>(ks: Kinds<S, E>, w: World<S>, ctx: Ctx<S>, o: Object<S>)
    requires StoreCounted(ks, w) && o.Half? && ObjectCounted(w.rows, ctx.captured, o)
    requires ObjectMeans(ks(o.id), o.id, w.rows, o)
    requires Rebuild(ks(o.id), ks(o.id).initial, Stored(w, o.id, o.snapshot)).Some?
    ensures var loaded := Stored(w, o.id, o.snapshot);
            var n := LastSequence(loaded);
            ObjectMeans(ks(o.id), o.id, w.rows, Live(o.id, Rebuild(ks(o.id), ks(o.id).initial, loaded).value, n, n))
  {
    MeantLoad(ks, w, o.id, o.snapshot);
    FoldIsFullReplay(ks, w.rows, o.id);
  }

  // ---------------- Applying ----------------

  // The new row and its snapshot, if one is due.
  lemma ApplyTakes<S(!new), E(!new)>(k: Kind<S, E>, ctx: Ctx<S>, slot: int, e: E, time: int, reference: string)
    returns (r: Row<S>)
    requires slot in ctx.objects && ctx.objects[slot].Live?
    requires AfterApply(k, ctx, slot, e, time, reference).Some?
    ensures var ctx' := AfterApply(k, ctx, slot, e, time, reference).value;
            && Advances(ctx, slot, r, ctx')
            && ctx.snapshots <= ctx'.snapshots
            && (forall s :: s in ctx'.snapshots ==> s in ctx.snapshots || (Due(k, s.sequence) && SnapshotOf(k, r, s)))
            && (Due(k, r.event.sequence) ==> HasSnapshotOf(k, ctx'.snapshots, r))
  {
    var o := ctx.objects[slot];
    var staging := Stage(k, o.id, o.state, o.sequence, e, time, reference);
    r := Row(staging.event, o.state, staging.state, slot);
    if Due(k, r.event.sequence) {
      assert staging.snapshots[0] in ctx.snapshots + staging.snapshots;
      assert SnapshotOf(k, r, staging.snapshots[0]);
    }
  }

  lemma SnapshotsStayTaken<S(!new), E(!new)>(k: Kind<S, E>, k': Kind<S, E>, id: int, ctx: Ctx<S>, slot: int, r: Row<S>,
                                             ctx': Ctx<S>)
    requires SnapshotsTaken(k, id, ctx) && Advances(ctx, slot, r, ctx') && ctx.snapshots <= ctx'.snapshots
    requires ctx.objects[slot].id == id ==> k' == k
    requires forall s :: s in ctx'.snapshots ==> s in ctx.snapshots || (Due(k', s.sequence) && SnapshotOf(k', r, s))
    requires Due(k', r.event.sequence) ==> HasSnapshotOf(k', ctx'.snapshots, r)
    ensures SnapshotsTaken(k, id, ctx')
  {
    assert r in ctx'.captured;
    forall s | s in ctx'.snapshots && s.aggregateId == id
      ensures TakenAt(k, ctx'.captured, s)
    {
      if s in ctx.snapshots {
        assert TakenAt(k, ctx.captured, s);
        var p :| p in ctx.captured && SnapshotOf(k, p, s);
        assert p in ctx'.captured;
      }
    }
    forall p | p in ctx'.captured && p.event.aggregateId == id && Due(k, p.event.sequence)
      ensures HasSnapshotOf(k, ctx'.snapshots, p)
    {
      if p in ctx.captured {
        assert HasSnapshotOf(k, ctx.snapshots, p);
        var s :| s in ctx.snapshots && SnapshotOf(k, p, s);
        assert s in ctx'.snapshots;
      }
    }
  }

  lemma RowsStayMeant<S(!new), E(!new)>(k: Kind<S, E>, id: int, rows: seq<Row<S>>, ctx: Ctx<S>, slot: int, r: Row<S>,
                                        ctx': Ctx<S>)
    requires CtxMeans(k, id, rows, ctx) && RowsOwned(ctx) && Advances(ctx, slot, r, ctx')
    ensures forall p :: p in ctx'.captured ==> FirstMeans(k, id, rows, ctx', p)
  {
    forall p | p in ctx'.captured
      ensures FirstMeans(k, id, rows, ctx', p)
    {
      if p in ctx.captured {
        assert FirstMeans(k, id, rows, ctx, p) && Owned(ctx, p);
      } else {
        assert ObjectMeans(k, id, rows, ctx.objects[slot]);
      }
    }
  }

  lemma ApplyMeans<S(!new), E(!new)>(ks: Kinds<S, E>, id: int, rows: seq<Row<S>>, ctx: Ctx<S>, slot: int, e: E,
                                     time: int, reference: string)
    requires CtxMeans(ks(id), id, rows, ctx) && CtxCounted(ks, rows, ctx)
    requires slot in ctx.objects && ctx.objects[slot].Live?
    requires AfterApply(ks(ctx.objects[slot].id), ctx, slot, e, time, reference).Some?
    ensures CtxMeans(ks(id), id, rows, AfterApply(ks(ctx.objects[slot].id), ctx, slot, e, time, reference).value)
  {
    var k, k' := ks(id), ks(ctx.objects[slot].id);
    var ctx' := AfterApply(k', ctx, slot, e, time, reference).value;
    var r := ApplyTakes(k', ctx, slot, e, time, reference);
    SnapshotsStayTaken(k, k', id, ctx, slot, r, ctx');
    RowsStayMeant(k, id, rows, ctx, slot, r, ctx');
    assert ObjectCounted(rows, ctx.captured, ctx.objects[slot]);
    forall s | s in ctx'.objects
      ensures ObjectMeans(k, id, rows, ctx'.objects[s])
    {
      assert s != slot ==> ObjectMeans(k, id, rows, ctx.objects[s]);
    }
  }

  // ---------------- Committing ----------------

  lemma StampedPlace<S(!new)>(rows: seq<Row<S>>, captured: seq<Row<S>>, nows: seq<int>, id: int, j: nat)
    requires |nows| == |captured| && j < |Stream(captured, id)|
    ensures var all, i := rows + Stamped(captured, nows), |Stream(rows, id)| + j;
            i < |Stream(all, id)| && PairOf(Stream(all, id)[i].event) == PairOf(Stream(captured, id)[j].event)
  {
    StreamConcat(rows, Stamped(captured, nows), id);
    StampedStream(captured, nows, id);
  }

  // Row j of the aggregate's own rows takes its place right after what was saved before.
  lemma OwnPlace<S(!new)>(rows: seq<Row<S>>, captured: seq<Row<S>>, nows: seq<int>, id: int, j: nat)
    requires |nows| == |captured| && Consecutive(Pairs(rows + Stamped(captured, nows))) && j < |Stream(captured, id)|
    ensures PairOf(Stream(captured, id)[j].event) == (id, |Stream(rows, id)| + j + 1)
  {
    StampedPlace(rows, captured, nows, id, j);
    StreamCounts(rows + Stamped(captured, nows), id);
  }

  // Each of the aggregate's rows in a context that can commit is where its pair says.
  lemma OwnRow<S(!new)>(rows: seq<Row<S>>, captured: seq<Row<S>>, nows: seq<int>, id: int, r: Row<S>) returns (j: nat)
    requires |nows| == |captured| && Consecutive(Pairs(rows + Stamped(captured, nows)))
    requires r in captured && r.event.aggregateId == id
    ensures j < |Stream(captured, id)| && Stream(captured, id)[j] == r
    ensures r.event.sequence == |Stream(rows, id)| + j + 1
  {
    StreamMembers(captured, id);
    j :| 0 <= j < |Stream(captured, id)| && Stream(captured, id)[j] == r;
    OwnPlace(rows, captured, nows, id, j);
  }

  // The aggregate's object was loaded at the end of what was saved.
  lemma BaseIsEnd<S(!new)>(id: int, rows: seq<Row<S>>, ctx: Ctx<S>, nows: seq<int>)
    requires RowsOwned(ctx) && FirstsStaged(ctx) && |nows| == |ctx.captured|
    requires Consecutive(Pairs(rows + Stamped(ctx.captured, nows))) && Stream(ctx.captured, id) != []
    ensures var r := Stream(ctx.captured, id)[0];
            && r in ctx.captured && Owned(ctx, r)
            && PairOf(r.event) == (id, ctx.objects[r.slot].base + 1) && ctx.objects[r.slot].base == |Stream(rows, id)|
  {
    var r := Stream(ctx.captured, id)[0];
    StreamMembers(ctx.captured, id);
    assert r in Stream(ctx.captured, id);
    OwnPlace(rows, ctx.captured, nows, id, 0);
    assert Owned(ctx, r);
    var first := FirstIsStaged(ctx, r.slot);
    var j := OwnRow(rows, ctx.captured, nows, id, first);
  }

  // So its first event starts there.
  lemma OwnStart<S(!new), E(!new)>(ks: Kinds<S, E>, id: int, rows: seq<Row<S>>, ctx: Ctx<S>, nows: seq<int>)
    requires CtxMeans(ks(id), id, rows, ctx) && CtxCounted(ks, rows, ctx) && |nows| == |ctx.captured|
    requires Consecutive(Pairs(rows + Stamped(ctx.captured, nows))) && Stream(ctx.captured, id) != []
    ensures Fold(ks(id), rows, id, |Stream(rows, id)|) == Some(Stream(ctx.captured, id)[0].before)
  {
    BaseIsEnd(id, rows, ctx, nows);
    assert FirstMeans(ks(id), id, rows, ctx, Stream(ctx.captured, id)[0]);
  }

  lemma EventsAfterCommit<S(!new)>(rows: seq<Row<S>>, captured: seq<Row<S>>, nows: seq<int>, id: int, q: nat)
    requires |nows| == |captured| && q <= |Stream(captured, id)|
    ensures var all, n := rows + Stamped(captured, nows), |Stream(rows, id)|;
            && n + |Stream(captured, id)| == |Stream(all, id)|
            && Events(Stream(all, id))[..n + q] == Events(Stream(rows, id)) + Saved(captured, nows, id)[..q]
  {
    StreamConcat(rows, Stamped(captured, nows), id);
    StampedStream(captured, nows, id);
  }

  lemma FoldSplits<S(!new), E(!new)>(k: Kind<S, E>, rows: seq<Row<S>>, captured: seq<Row<S>>, nows: seq<int>, id: int,
                                     q: nat, m: nat, s: S)
    requires |nows| == |captured| && q <= |Stream(captured, id)| && m == |Stream(rows, id)| + q
    requires Fold(k, rows, id, |Stream(rows, id)|) == Some(s)
    ensures m <= |Stream(rows + Stamped(captured, nows), id)|
    ensures Fold(k, rows + Stamped(captured, nows), id, m) == Replay(k, s, Saved(captured, nows, id)[..q])
  {
    var events, saved := Events(Stream(rows, id)), Saved(captured, nows, id);
    EventsAfterCommit(rows, captured, nows, id, q);
    assert events[..|events|] == events;
    ReplayConcat(k, k.initial, events, saved[..q]);
  }

  // After the commit, the fold of m events is the replay of the q saved events from where the object started.
  lemma FoldOfOwn<S(!new), E(!new)>(ks: Kinds<S, E>, id: int, rows: seq<Row<S>>, ctx: Ctx<S>, nows: seq<int>, q: nat,
                                    m: nat)
    requires CtxMeans(ks(id), id, rows, ctx) && CtxCounted(ks, rows, ctx) && |nows| == |ctx.captured|
    requires Consecutive(Pairs(rows + Stamped(ctx.captured, nows)))
    requires q <= |Stream(ctx.captured, id)| && Stream(ctx.captured, id) != [] && m == |Stream(rows, id)| + q
    ensures m <= |Stream(rows + Stamped(ctx.captured, nows), id)|
    ensures Fold(ks(id), rows + Stamped(ctx.captured, nows), id, m)
            == Replay(ks(id), Stream(ctx.captured, id)[0].before, Saved(ctx.captured, nows, id)[..q])
  {
    OwnStart(ks, id, rows, ctx, nows);
    FoldSplits(ks(id), rows, ctx.captured, nows, id, q, m, Stream(ctx.captured, id)[0].before);
  }

  // What is needed of a commit to speak of its meaning.
  ghost predicate ReadyToMean<S(!new), E(!new)>(ks: Kinds<S, E>, id: int, w: World<S>, ctx: Ctx<S>, nows: seq<int>) {
    && StoreCounted(ks, w) && CtxCounted(ks, w.rows, ctx) && CtxMeans(ks(id), id, w.rows, ctx) && Faithful(ks(id))
    && Commits(w, ctx) && |nows| == |ctx.captured|
  }

  lemma CommittedCount<S(!new), E(!new)>(ks: Kinds<S, E>, id: int, w: World<S>, ctx: Ctx<S>, nows: seq<int>)
    requires ReadyToMean(ks, id, w, ctx, nows)
    ensures Consecutive(Pairs(w.rows + Stamped(ctx.captured, nows)))
  {
    CommittedConsecutive(w.rows, ctx.captured);
    StampedPairs(w.rows, ctx.captured, nows);
  }

  lemma Decodes<S(!new), E(!new)>(k: Kind<S, E>, r: Row<S>, s: Snapshot)
    requires Faithful(k) && SnapshotOf(k, r, s)
    ensures k.decodeState(s.state) == Some(r.after)
  {
  }

  // A snapshot taken at own row j means what it says exactly when the saved events lead to the row's state.
  lemma OwnSnapshotMeans<S(!new), E(!new)>(ks: Kinds<S, E>, id: int, w: World<S>, ctx: Ctx<S>, nows: seq<int>, j: nat,
                                           s: Snapshot)
    requires ReadyToMean(ks, id, w, ctx, nows) && j < |Stream(ctx.captured, id)|
    requires SnapshotOf(ks(id), Stream(ctx.captured, id)[j], s)
    ensures var own := Stream(ctx.captured, id);
            Means(ks(id), id, w.rows + Stamped(ctx.captured, nows), s)
            <==> Replay(ks(id), own[0].before, Saved(ctx.captured, nows, id)[..j + 1]) == Some(own[j].after)
  {
    CommittedCount(ks, id, w, ctx, nows);
    OwnPlace(w.rows, ctx.captured, nows, id, j);
    Decodes(ks(id), Stream(ctx.captured, id)[j], s);
    FoldOfOwn(ks, id, w.rows, ctx, nows, j + 1, s.sequence);
  }

  lemma NewSnapshotsMean<S(!new), E(!new)>(ks: Kinds<S, E>, id: int, w: World<S>, ctx: Ctx<S>, nows: seq<int>)
    requires ReadyToMean(ks, id, w, ctx, nows)
    ensures (forall s :: s in ctx.snapshots && s.aggregateId == id ==>
               Means(ks(id), id, w.rows + Stamped(ctx.captured, nows), s))
            <==> CommitMeans(ks(id), id, ctx.captured, nows)
  {
    var k, all := ks(id), w.rows + Stamped(ctx.captured, nows);
    var own, saved := Stream(ctx.captured, id), Saved(ctx.captured, nows, id);
    CommittedCount(ks, id, w, ctx, nows);
    if forall s :: s in ctx.snapshots && s.aggregateId == id ==> Means(k, id, all, s) {
      forall j | 0 <= j < |own|
        ensures MeansAt(k, own, saved, j)
      {
        StreamMembers(ctx.captured, id);
        assert own[j] in own;
        if Due(k, own[j].event.sequence) {
          assert HasSnapshotOf(k, ctx.snapshots, own[j]);
          var s :| s in ctx.snapshots && SnapshotOf(k, own[j], s);
          OwnSnapshotMeans(ks, id, w, ctx, nows, j, s);
        }
      }
    }
    if CommitMeans(k, id, ctx.captured, nows) {
      forall s | s in ctx.snapshots && s.aggregateId == id
        ensures Means(k, id, all, s)
      {
        assert TakenAt(k, ctx.captured, s);
        var r :| r in ctx.captured && SnapshotOf(k, r, s);
        var j := OwnRow(w.rows, ctx.captured, nows, id, r);
        assert MeansAt(k, own, saved, j);
        OwnSnapshotMeans(ks, id, w, ctx, nows, j, s);
      }
    }
  }

  /** A commit keeps every snapshot's meaning exactly when it respects the rows at which its own snapshots are due. */
  lemma CommitMeansExactly<S(!new), E(!new)>(ks: Kinds<S, E>, id: int, w: World<S>, c: int, ctx: Ctx<S>, nows: seq<int>)
    requires ReadyToMean(ks, id, w, ctx, nows) && SnapshotsMean(ks, w, id)
    ensures SnapshotsMean(ks, AfterCommit(w, c, ctx, nows), id) <==> CommitMeans(ks(id), id, ctx.captured, nows)
  {
    var v := AfterCommit(w, c, ctx, nows);
    NewSnapshotsMean(ks, id, w, ctx, nows);
    forall s | s in w.snapshots && s.aggregateId == id
      ensures Means(ks(id), id, v.rows, s)
    {
      MeansGrows(ks(id), id, w.rows, v.rows, s);
    }
    assert forall s :: s in v.snapshots <==> s in w.snapshots || s in ctx.snapshots;
  }

  // ---------------- Every move keeps it ----------------

  lemma OwnMeans<S(!new), E(!new)>(ks: Kinds<S, E>, id: int, w: World<S>, m: Move<E>)
    requires Counted(ks, w) && AllMean(ks, id, w) && Next(ks, w, m).Some? && !m.Commit?
    ensures m.c in Next(ks, w, m).value.contexts ==>
              CtxMeans(ks(id), id, w.rows, Next(ks, w, m).value.contexts[m.c])
  {
    if !m.Begin? {
      var ctx := w.contexts[m.c];
      assert CtxMeans(ks(id), id, w.rows, ctx) && CtxCounted(ks, w.rows, ctx);
      match m
      case Create(c, slot, i) =>
        CreatedMeans(ks(i), i, w.rows);
        NewObjectMeans(ks(id), id, w.rows, ctx, slot, Live(i, ks(i).initial, 0, 0));
      case ReadSnapshot(c, slot, i) =>
        ReadMeans(ks, w, id);
        NewObjectMeans(ks(id), id, w.rows, ctx, slot, Half(i, MostRecent(w.snapshots, i)));
      case ReadEvents(c, slot) => EventsReadMean(ks, id, w, ctx, slot);
      case Apply(c, slot, e, time, reference) =>
        if AfterApply(ks(ctx.objects[slot].id), ctx, slot, e, time, reference).Some? {
          ApplyMeans(ks, id, w.rows, ctx, slot, e, time, reference);
        }
      case _ =>
    }
  }

  lemma EventsReadMean<S(!new), E(!new)>(ks: Kinds<S, E>, id: int, w: World<S>, ctx: Ctx<S>, slot: int)
    requires StoreCounted(ks, w) && CtxMeans(ks(id), id, w.rows, ctx) && CtxCounted(ks, w.rows, ctx)
    requires slot in ctx.objects && ctx.objects[slot].Half?
    ensures var o := ctx.objects[slot];
            var loaded := Stored(w, o.id, o.snapshot);
            var state := Rebuild(ks(o.id), ks(o.id).initial, loaded);
            state.Some? ==>
              var n := LastSequence(loaded);
              CtxMeans(ks(id), id, w.rows, ctx.(objects := ctx.objects[slot := Live(o.id, state.value, n, n)]))
  {
    var o := ctx.objects[slot];
    var loaded := Stored(w, o.id, o.snapshot);
    var state := Rebuild(ks(o.id), ks(o.id).initial, loaded);
    if state.Some? {
      var live := Live(o.id, state.value, LastSequence(loaded), LastSequence(loaded));
      assert ObjectMeans(ks(id), id, w.rows, o) && ObjectCounted(w.rows, ctx.captured, o);
      if o.id == id {
        LoadedMeans(ks, w, ctx, o);
      }
      NewObjectMeans(ks(id), id, w.rows, ctx, slot, live);
    }
  }

  lemma MoveKeepsMeaning<S(!new), E(!new)>(ks: Kinds<S, E>, id: int, w: World<S>, m: Move<E>)
    requires Counted(ks, w) && AllMean(ks, id, w) && Faithful(ks(id))
    requires SavesMean(ks, w, m, id) && Next(ks, w, m).Some?
    ensures AllMean(ks, id, Next(ks, w, m).value)
  {
    var v := Next(ks, w, m).value;
    MoveFrames(ks, w, m);
    if m.Commit? {
      if Commits(w, w.contexts[m.c]) {
        assert CtxMeans(ks(id), id, w.rows, w.contexts[m.c]) && CtxCounted(ks, w.rows, w.contexts[m.c]);
        CommitMeansExactly(ks, id, w, m.c, w.contexts[m.c], m.nows);
      }
    } else {
      OwnMeans(ks, id, w, m);
    }
    forall c | c in v.contexts && c != m.c
      ensures CtxMeans(ks(id), id, v.rows, v.contexts[c])
    {
      CtxMeansGrows(ks(id), id, w.rows, v.rows, w.contexts[c]);
    }
  }

  lemma {:induction false} RunKeepsMeaning<S(!new), E(!new)>(ks: Kinds<S, E>, moves: seq<Move<E>>, id: int)
    requires Faithful(ks(id)) && RunSavesMean(ks, moves, id) && Run(ks, moves).Some?
    ensures AllMean(ks, id, Run(ks, moves).value)
  {
    if moves != [] {
      var init := moves[..|moves| - 1];
      RunKeepsMeaning(ks, init, id);
      RunKeepsCounted(ks, init);
      MoveKeepsMeaning(ks, id, Run(ks, init).value, moves[|moves| - 1]);
    }
  }

  // What the snapshots of a longer run mean, they meant before.
  lemma MeantBefore<S(!new), E(!new)>(ks: Kinds<S, E>, w: World<S>, v: World<S>, id: int)
    requires StoreCounted(ks, w) && w.rows <= v.rows && w.snapshots <= v.snapshots && SnapshotsMean(ks, v, id)
    ensures SnapshotsMean(ks, w, id)
  {
    forall s | s in w.snapshots && s.aggregateId == id
      ensures Means(ks(id), id, w.rows, s)
    {
      assert s in v.snapshots && Means(ks(id), id, v.rows, s);
      assert HasSnapshotAt(w, id, s.sequence);
      SnapshotAt(ks, w, id, s.sequence);
      StreamCounts(w.rows, id);
      FoldGrows(ks(id), w.rows, v.rows, id, s.sequence);
    }
  }

  lemma {:induction false} MeaningIsNeeded<S(!new), E(!new)>(ks: Kinds<S, E>, moves: seq<Move<E>>, id: int)
    requires Faithful(ks(id)) && Run(ks, moves).Some? && SnapshotsMean(ks, Run(ks, moves).value, id)
    ensures RunSavesMean(ks, moves, id)
  {
    if moves != [] {
      var init, m := moves[..|moves| - 1], moves[|moves| - 1];
      var w := Run(ks, init).value;
      RunKeepsCounted(ks, init);
      MoveGrows(ks, w, m);
      MeantBefore(ks, w, Run(ks, moves).value, id);
      MeaningIsNeeded(ks, init, id);
      RunKeepsMeaning(ks, init, id);
      if m.Commit? && Commits(w, w.contexts[m.c]) {
        assert CtxMeans(ks(id), id, w.rows, w.contexts[m.c]) && CtxCounted(ks, w.rows, w.contexts[m.c]);
        CommitMeansExactly(ks, id, w, m.c, w.contexts[m.c], m.nows);
      }
    }
  }

  /**
   Snapshots keep their meaning over a run exactly when each commit of the run respects the rows at which its snapshots
   are due: for every kind of aggregate, every frequency and whatever times events are saved with.
   */
  lemma {:induction false} SnapshotsMeanExactly<S(!new), E(!new)>(ks: Kinds<S, E>, moves: seq<Move<E>>, id: int)
    requires Faithful(ks(id)) && Run(ks, moves).Some?
    ensures SnapshotsMean(ks, Run(ks, moves).value, id) <==> RunSavesMean(ks, moves, id)
  {
    if SnapshotsMean(ks, Run(ks, moves).value, id) {
      MeaningIsNeeded(ks, moves, id);
    }
    if RunSavesMean(ks, moves, id) {
      RunKeepsMeaning(ks, moves, id);
    }
  }

  /** A commit without a due snapshot of the aggregate respects it whatever its times. */
  lemma NothingDueMeans<S(!new), E(!new)>(k: Kind<S, E>, id: int, captured: seq<Row<S>>, nows: seq<int>)
    requires |nows| == |captured|
    requires forall r :: r in captured && r.event.aggregateId == id ==> !Due(k, r.event.sequence)
    ensures CommitMeans(k, id, captured, nows)
  {
    StreamMembers(captured, id);
    var own := Stream(captured, id);
    assert forall j :: 0 <= j < |own| ==> own[j] in own;
  }

  // ---------------- Loads are full replays ----------------

  /**
   A torn load is right: with the snapshot read at one moment of a run and the events at any later one, the result, a
   failure included, is the full replay of the stream as it was when the events were read.
   */
  lemma {:induction false} TornLoadIsFullReplay<S(!new), E(!new)>(ks: Kinds<S, E>, moves: seq<Move<E>>, n: nat, id: int)
    requires Faithful(ks(id)) && RunSavesMean(ks, moves, id) && n <= |moves| && Run(ks, moves).Some?
    ensures Run(ks, moves[..n]).Some?
    ensures var then_ := Run(ks, moves[..n]).value;
            var w := Run(ks, moves).value;
            var loaded := Stored(w, id, MostRecent(then_.snapshots, id));
            && Rebuild(ks(id), ks(id).initial, loaded) == FullReplay(ks, w.rows, id)
            && LastSequence(loaded) == Length(w, id)
  {
    RunGrows(ks, moves, n);
    RunKeepsCounted(ks, moves);
    RunKeepsCounted(ks, moves[..n]);
    RunKeepsMeaning(ks, moves, id);
    TornLoad(ks, Run(ks, moves[..n]).value, Run(ks, moves).value, id);
  }

  lemma TornLoad<S(!new), E(!new)>(ks: Kinds<S, E>, u: World<S>, w: World<S>, id: int)
    requires StoreCounted(ks, u) && Consecutive(Pairs(w.rows)) && SnapshotsMean(ks, w, id)
    requires u.rows <= w.rows && u.snapshots <= w.snapshots
    ensures var loaded := Stored(w, id, MostRecent(u.snapshots, id));
            && Rebuild(ks(id), ks(id).initial, loaded) == FullReplay(ks, w.rows, id)
            && LastSequence(loaded) == Length(w, id)
  {
    var snapshot := MostRecent(u.snapshots, id);
    if snapshot.Some? {
      SnapshotCounted(ks, u, id);
      HasPairGrows(u.rows, w.rows, id, snapshot.value.sequence);
      assert snapshot.value in w.snapshots;
    }
    MeantLoad(ks, w, id, snapshot);
    StreamCounts(w.rows, id);
  }

  /**
   After every run whose commits respect their due snapshots, loading a fresh aggregate from its latest snapshot and
   the tail after it gives what folding all its saved events gives, and ends at its last sequence.
   */
  lemma {:induction false} LoadIsFullReplay<S(!new), E(!new)>(ks: Kinds<S, E>, moves: seq<Move<E>>, id: int)
    requires Faithful(ks(id)) && RunSavesMean(ks, moves, id) && Run(ks, moves).Some?
    ensures var w := Run(ks, moves).value;
            && Rebuild(ks(id), ks(id).initial, LoadNow(w, id)) == FullReplay(ks, w.rows, id)
            && LastSequence(LoadNow(w, id)) == Length(w, id)
  {
    RunKeepsCounted(ks, moves);
    RunKeepsMeaning(ks, moves, id);
    TornLoad(ks, Run(ks, moves).value, Run(ks, moves).value, id);
  }
}
