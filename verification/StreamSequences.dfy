/** What every run of concurrent contexts keeps of sequences, whatever the states, the codecs and the times. */
module StreamSequences {
  import opened Wrappers
  import opened Records
  import opened EventStreams
  import opened Aggregates
  import opened Streams

  // ---------------- The table ----------------

  // The pair right before it in its stream comes earlier.
  predicate Preceded(pairs: seq<Pair>, i: nat)
    requires i < |pairs|
  {
    1 <= pairs[i].1 && (pairs[i].1 == 1 || (pairs[i].0, pairs[i].1 - 1) in pairs[..i])
  }

  ghost predicate Consecutive(pairs: seq<Pair>) {
    Distinct(pairs) && forall i :: 0 <= i < |pairs| ==> Preceded(pairs, i)
  }

  /** The sequences of one aggregate, in table order. */
  function Numbers(pairs: seq<Pair>, id: int): seq<int> {
    if pairs == [] then []
    else
      var (i, sequence) := pairs[|pairs| - 1];
      Numbers(pairs[..|pairs| - 1], id) + (if i == id then [sequence] else [])
  }

  lemma ConsecutiveInit(pairs: seq<Pair>)
    requires Consecutive(pairs) && pairs != []
    ensures var init := pairs[..|pairs| - 1]; Consecutive(init) && pairs[|pairs| - 1] !in init
  {
    var init := pairs[..|pairs| - 1];
    forall i | 0 <= i < |init|
      ensures Preceded(init, i)
    {
      assert Preceded(pairs, i) && init[..i] == pairs[..i];
    }
  }

  /** In a duplicate-free table whose pairs each continue a stream, an aggregate's sequences are 1, 2, 3 and so on. */
  lemma {:induction false} NumbersCount(pairs: seq<Pair>, id: int)
    requires Consecutive(pairs)
    ensures forall i :: 0 <= i < |Numbers(pairs, id)| ==> Numbers(pairs, id)[i] == i + 1
    ensures forall s :: (id, s) in pairs <==> 1 <= s <= |Numbers(pairs, id)|
  {
    if pairs != [] {
      var init, last := pairs[..|pairs| - 1], pairs[|pairs| - 1];
      ConsecutiveInit(pairs);
      NumbersCount(init, id);
      assert Preceded(pairs, |pairs| - 1);
      assert forall p :: p in pairs <==> p in init || p == last;
    }
  }

  lemma {:induction false} StreamNumbers<S>(rows: seq<Row<S>>, id: int)
    ensures |Stream(rows, id)| == |Numbers(Pairs(rows), id)|
    ensures forall i :: 0 <= i < |Stream(rows, id)| ==>
              PairOf(Stream(rows, id)[i].event) == (id, Numbers(Pairs(rows), id)[i])
  {
    if rows != [] {
      var init := rows[..|rows| - 1];
      StreamNumbers(init, id);
      assert Pairs(rows)[..|rows| - 1] == Pairs(init);
    }
  }

  lemma {:induction false} AboveIsStream<S>(rows: seq<Row<S>>, id: int)
    requires forall i :: 0 <= i < |rows| ==> 1 <= rows[i].event.sequence
    ensures Above(Events(rows), id, 0) == Events(Stream(rows, id))
  {
    if rows != [] {
      var init := rows[..|rows| - 1];
      AboveIsStream(init, id);
      assert Events(rows)[..|rows| - 1] == Events(init);
    }
  }

  /** So each stream of the table is gap-free, and its rows are the aggregate's events. */
  lemma StreamCounts<S>(rows: seq<Row<S>>, id: int)
    requires Consecutive(Pairs(rows))
    ensures forall i :: 0 <= i < |Stream(rows, id)| ==> PairOf(Stream(rows, id)[i].event) == (id, i + 1)
    ensures Above(Events(rows), id, 0) == Events(Stream(rows, id)) && GapFree(Above(Events(rows), id, 0))
    ensures forall s :: (id, s) in Pairs(rows) <==> 1 <= s <= |Stream(rows, id)|
  {
    NumbersCount(Pairs(rows), id);
    StreamNumbers(rows, id);
    forall i | 0 <= i < |rows|
      ensures 1 <= rows[i].event.sequence
    {
      assert Preceded(Pairs(rows), i);
    }
    AboveIsStream(rows, id);
  }

  lemma TailEvents<S>(rows: seq<Row<S>>, id: int, n: nat)
    requires Consecutive(Pairs(rows)) && n <= |Stream(rows, id)|
    ensures EventsAfter(Events(rows), id, n) == Events(Stream(rows, id))[n..]
  {
    StreamCounts(rows, id);
    AboveIsSuffix(Events(rows), id, n);
    OrderedStays(Above(Events(rows), id, n));
  }

  // Whatever snapshot of the stream a load starts from, it ends at the stream's last sequence.
  lemma LoadedSequence<S(!new)>(w: World<S>, id: int, snapshot: Option<Snapshot>)
    requires Consecutive(Pairs(w.rows))
    requires snapshot.Some? ==> HasPair(w.rows, id, snapshot.value.sequence)
    ensures 0 <= SequenceOf(snapshot) <= |Stream(w.rows, id)|
    ensures Stored(w, id, snapshot).events == Events(Stream(w.rows, id))[SequenceOf(snapshot)..]
    ensures LastSequence(Stored(w, id, snapshot)) == |Stream(w.rows, id)|
  {
    StreamCounts(w.rows, id);
    if snapshot.Some? {
      PairsMember(w.rows, (id, snapshot.value.sequence));
    }
    TailEvents(w.rows, id, SequenceOf(snapshot));
  }

  // ---------------- The snapshots ----------------

  // The pairs at which a snapshot is due.
  ghost function DuePairs<S(!new), E(!new)>(ks: Kinds<S, E>, pairs: seq<Pair>): seq<Pair> {
    if pairs == [] then []
    else
      var (id, sequence) := pairs[|pairs| - 1];
      DuePairs(ks, pairs[..|pairs| - 1]) + (if Due(ks(id), sequence) then [(id, sequence)] else [])
  }

  lemma {:induction false} DuePairsConcat<S(!new), E(!new)>(ks: Kinds<S, E>, a: seq<Pair>, b: seq<Pair>)
    ensures DuePairs(ks, a + b) == DuePairs(ks, a) + DuePairs(ks, b)
    decreases |b|
  {
    if b == [] {
      assert a + b == a;
    } else {
      DuePairsConcat(ks, a, b[..|b| - 1]);
      assert (a + b)[..|a + b| - 1] == a + b[..|b| - 1];
    }
  }

  lemma {:induction false} DuePairsExact<S(!new), E(!new)>(ks: Kinds<S, E>, pairs: seq<Pair>)
    ensures forall p :: p in DuePairs(ks, pairs) <==> p in pairs && Due(ks(p.0), p.1)
    ensures Distinct(pairs) ==> Distinct(DuePairs(ks, pairs))
  {
    if pairs != [] {
      var init, last := pairs[..|pairs| - 1], pairs[|pairs| - 1];
      DuePairsExact(ks, init);
      assert forall p :: p in pairs <==> p in init || p == last;
      if Distinct(pairs) {
        assert last !in init;
      }
    }
  }

  // ---------------- What a context has staged ----------------

  // The object has new events.
  predicate Dirty<S>(ctx: Ctx<S>, slot: int) {
    slot in ctx.objects && ctx.objects[slot].Live? && ctx.objects[slot].base < ctx.objects[slot].sequence
  }

  // The row was applied through an object of its aggregate, after the object was loaded.
  predicate Owned<S>(ctx: Ctx<S>, r: Row<S>) {
    && Dirty(ctx, r.slot)
    && ctx.objects[r.slot].id == r.event.aggregateId
    && ctx.objects[r.slot].base < r.event.sequence <= ctx.objects[r.slot].sequence
  }

  ghost predicate RowsOwned<S>(ctx: Ctx<S>) {
    && (forall r :: r in ctx.captured ==> Owned(ctx, r))
    && forall i, j :: 0 <= i < j < |ctx.captured| && ctx.captured[i].slot == ctx.captured[j].slot ==>
         ctx.captured[i].event.sequence < ctx.captured[j].event.sequence
  }

  ghost predicate HasFirst<S>(captured: seq<Row<S>>, slot: int, sequence: int) {
    exists r :: r in captured && r.slot == slot && r.event.sequence == sequence
  }

  ghost predicate FirstStaged<S>(ctx: Ctx<S>, slot: int)
    requires Dirty(ctx, slot)
  {
    HasFirst(ctx.captured, slot, ctx.objects[slot].base + 1)
  }

  ghost predicate FirstsStaged<S>(ctx: Ctx<S>) {
    forall slot {:trigger FirstStaged(ctx, slot)} :: Dirty(ctx, slot) ==> FirstStaged(ctx, slot)
  }

  // The staged row continues its stream from a committed row or one staged before it.
  ghost predicate StagedAfter<S>(rows: seq<Row<S>>, captured: seq<Row<S>>, i: nat)
    requires i < |captured|
  {
    var e := captured[i].event;
    1 <= e.sequence && (e.sequence == 1 || HasPair(rows + captured[..i], e.aggregateId, e.sequence - 1))
  }

  // What was loaded had been committed, and what was applied has been staged.
  ghost predicate ObjectCounted<S>(rows: seq<Row<S>>, captured: seq<Row<S>>, o: Object<S>) {
    match o
    case Half(id, snapshot) =>
      snapshot.Some? ==> snapshot.value.aggregateId == id && HasPair(rows, id, snapshot.value.sequence)
    case Live(id, _, sequence, base) =>
      && 0 <= base <= sequence
      && (base == 0 || HasPair(rows, id, base))
      && (sequence == 0 || HasPair(rows + captured, id, sequence))
  }

  ghost predicate CtxCounted<S(!new), E(!new)>(ks: Kinds<S, E>, rows: seq<Row<S>>, ctx: Ctx<S>) {
    && RowsOwned(ctx)
    && FirstsStaged(ctx)
    && (forall i :: 0 <= i < |ctx.captured| ==> StagedAfter(rows, ctx.captured, i))
    && (forall slot :: slot in ctx.objects ==> ObjectCounted(rows, ctx.captured, ctx.objects[slot]))
    && SnapshotPairs(ctx.snapshots) == DuePairs(ks, Pairs(ctx.captured))
  }

  ghost predicate StoreCounted<S(!new), E(!new)>(ks: Kinds<S, E>, w: World<S>) {
    && Consecutive(Pairs(w.rows))
    && SnapshotPairs(w.snapshots) == DuePairs(ks, Pairs(w.rows))
  }

  // Of all contexts that loaded an aggregate at one sequence, one at most has committed events for it.
  ghost predicate OneWinner(wins: set<Win>) {
    forall a, b :: a in wins && b in wins && a.id == b.id && a.base == b.base ==> a.ctx == b.ctx
  }

  ghost predicate WinsOk<S>(w: World<S>) {
    && (forall win :: win in w.wins ==> win.ctx in w.ended && HasPair(w.rows, win.id, win.base + 1))
    && OneWinner(w.wins)
  }

  ghost predicate Counted<S(!new), E(!new)>(ks: Kinds<S, E>, w: World<S>) {
    && StoreCounted(ks, w)
    && WinsOk(w)
    && forall c :: c in w.contexts ==> c !in w.ended && CtxCounted(ks, w.rows, w.contexts[c])
  }

  // ---------------- Loading and creating ----------------

  lemma NewObjectCounted<S(!new), E(!new)>(ks: Kinds<S, E>, rows: seq<Row<S>>, ctx: Ctx<S>, slot: int, o: Object<S>)
    requires CtxCounted(ks, rows, ctx) && !Dirty(ctx, slot) && ObjectCounted(rows, ctx.captured, o)
    requires o.Live? ==> o.base == o.sequence
    ensures CtxCounted(ks, rows, ctx.(objects := ctx.objects[slot := o]))
  {
    var ctx' := ctx.(objects := ctx.objects[slot := o]);
    assert forall s :: Dirty(ctx', s) ==> s != slot && Dirty(ctx, s);
    forall r | r in ctx'.captured
      ensures Owned(ctx', r)
    {
      assert Owned(ctx, r);
    }
    forall s | Dirty(ctx', s)
      ensures FirstStaged(ctx', s)
    {
      assert FirstStaged(ctx, s);
    }
  }

  lemma SnapshotCounted<S(!new), E(!new)>(ks: Kinds<S, E>, w: World<S>, id: int)
    requires StoreCounted(ks, w) && MostRecent(w.snapshots, id).Some?
    ensures HasPair(w.rows, id, MostRecent(w.snapshots, id).value.sequence)
  {
    var s := MostRecent(w.snapshots, id).value;
    var i :| 0 <= i < |w.snapshots| && w.snapshots[i] == s;
    assert SnapshotPairs(w.snapshots)[i] == (id, s.sequence);
    DuePairsExact(ks, Pairs(w.rows));
    PairsMember(w.rows, (id, s.sequence));
  }

  // An object that a load leaves, with any state.
  lemma LoadedCounted<S(!new), E(!new)>(ks: Kinds<S, E>, w: World<S>, ctx: Ctx<S>, slot: int, state: S)
    requires StoreCounted(ks, w) && CtxCounted(ks, w.rows, ctx) && slot in ctx.objects && ctx.objects[slot].Half?
    ensures var o := ctx.objects[slot];
            var n := LastSequence(Stored(w, o.id, o.snapshot));
            CtxCounted(ks, w.rows, ctx.(objects := ctx.objects[slot := Live(o.id, state, n, n)]))
  {
    var o := ctx.objects[slot];
    assert ObjectCounted(w.rows, ctx.captured, o);
    LoadedSequence(w, o.id, o.snapshot);
    StreamCounts(w.rows, o.id);
    var n := |Stream(w.rows, o.id)|;
    if 0 < n {
      assert (o.id, n) in Pairs(w.rows);
      PairsMember(w.rows, (o.id, n));
      HasPairGrows(w.rows, w.rows + ctx.captured, o.id, n);
    }
    NewObjectCounted(ks, w.rows, ctx, slot, Live(o.id, state, n, n));
  }

  // ---------------- Applying ----------------

  // The context after one more event on the object in `slot`, staged as `r`.
  ghost predicate Advances<S>(ctx: Ctx<S>, slot: int, r: Row<S>, ctx': Ctx<S>) {
    && slot in ctx.objects && ctx.objects[slot].Live?
    && var o := ctx.objects[slot];
    && r.slot == slot && r.before == o.state && PairOf(r.event) == (o.id, o.sequence + 1)
    && ctx'.objects == ctx.objects[slot := o.(state := r.after, sequence := o.sequence + 1)]
    && ctx'.captured == ctx.captured + [r]
  }

  lemma RowsOwnedExtends<S>(ctx: Ctx<S>, slot: int, r: Row<S>, ctx': Ctx<S>)
    requires RowsOwned(ctx) && Advances(ctx, slot, r, ctx') && ctx.objects[slot].base <= ctx.objects[slot].sequence
    ensures RowsOwned(ctx')
  {
    var all := ctx'.captured;
    forall p | p in all
      ensures Owned(ctx', p)
    {
      if p in ctx.captured {
        assert Owned(ctx, p);
      }
    }
    forall i, j | 0 <= i < j < |all| && all[i].slot == all[j].slot
      ensures all[i].event.sequence < all[j].event.sequence
    {
      assert all[i] == ctx.captured[i] && ctx.captured[i] in ctx.captured;
      if j == |ctx.captured| {
        assert Owned(ctx, ctx.captured[i]);
      }
    }
  }

  lemma FirstsExtend<S>(ctx: Ctx<S>, slot: int, r: Row<S>, ctx': Ctx<S>)
    requires FirstsStaged(ctx) && Advances(ctx, slot, r, ctx') && ctx.objects[slot].base <= ctx.objects[slot].sequence
    ensures FirstsStaged(ctx')
  {
    forall s | Dirty(ctx', s)
      ensures FirstStaged(ctx', s)
    {
      if Dirty(ctx, s) {
        assert FirstStaged(ctx, s);
        var p :| p in ctx.captured && p.slot == s && p.event.sequence == ctx.objects[s].base + 1;
        assert p in ctx'.captured;
      } else {
        assert r in ctx'.captured;
      }
    }
  }

  lemma StagedExtends<S>(rows: seq<Row<S>>, captured: seq<Row<S>>, r: Row<S>)
    requires forall i :: 0 <= i < |captured| ==> StagedAfter(rows, captured, i)
    requires 1 <= r.event.sequence
    requires r.event.sequence == 1 || HasPair(rows + captured, r.event.aggregateId, r.event.sequence - 1)
    ensures forall i :: 0 <= i < |captured| + 1 ==> StagedAfter(rows, captured + [r], i)
  {
    var all := captured + [r];
    forall i | 0 <= i < |all|
      ensures StagedAfter(rows, all, i)
    {
      if i < |captured| {
        assert all[..i] == captured[..i] && StagedAfter(rows, captured, i);
      } else {
        assert all[..i] == captured;
      }
    }
  }

  lemma ObjectsAdvance<S>(rows: seq<Row<S>>, ctx: Ctx<S>, slot: int, r: Row<S>, ctx': Ctx<S>)
    requires forall s :: s in ctx.objects ==> ObjectCounted(rows, ctx.captured, ctx.objects[s])
    requires Advances(ctx, slot, r, ctx')
    ensures forall s :: s in ctx'.objects ==> ObjectCounted(rows, ctx'.captured, ctx'.objects[s])
  {
    assert r in rows + ctx'.captured;
    forall s | s in ctx'.objects
      ensures ObjectCounted(rows, ctx'.captured, ctx'.objects[s])
    {
      assert ObjectCounted(rows, ctx.captured, ctx.objects[s]);
      var o := ctx.objects[s];
      if s != slot && o.Live? && o.sequence != 0 {
        HasPairGrows(rows + ctx.captured, rows + ctx'.captured, o.id, o.sequence);
      }
    }
  }

  lemma StagedPairs<S(!new), E(!new)>(k: Kind<S, E>, id: int, s: S, sequence: int, e: E, time: int, reference: string)
    requires Stage(k, id, s, sequence, e, time, reference).Staged?
    ensures var staging := Stage(k, id, s, sequence, e, time, reference);
            SnapshotPairs(staging.snapshots) == if Due(k, sequence + 1) then [PairOf(staging.event)] else []
  {
  }

  lemma ApplyAdvances<S(!new), E(!new)>(k: Kind<S, E>, ctx: Ctx<S>, slot: int, e: E, time: int, reference: string)
    returns (r: Row<S>)
    requires slot in ctx.objects && ctx.objects[slot].Live?
    requires AfterApply(k, ctx, slot, e, time, reference).Some?
    ensures var ctx' := AfterApply(k, ctx, slot, e, time, reference).value;
            var due := if Due(k, r.event.sequence) then [PairOf(r.event)] else [];
            Advances(ctx, slot, r, ctx') && SnapshotPairs(ctx'.snapshots) == SnapshotPairs(ctx.snapshots) + due
  {
    var o := ctx.objects[slot];
    var staging := Stage(k, o.id, o.state, o.sequence, e, time, reference);
    r := Row(staging.event, o.state, staging.state, slot);
    SnapshotPairsConcat(ctx.snapshots, staging.snapshots);
    StagedPairs(k, o.id, o.state, o.sequence, e, time, reference);
  }

  lemma ApplyCounted<S(!new), E(!new)>(ks: Kinds<S, E>, rows: seq<Row<S>>, ctx: Ctx<S>, slot: int, e: E, time: int,
                                       reference: string)
    requires CtxCounted(ks, rows, ctx) && slot in ctx.objects && ctx.objects[slot].Live?
    requires AfterApply(ks(ctx.objects[slot].id), ctx, slot, e, time, reference).Some?
    ensures CtxCounted(ks, rows, AfterApply(ks(ctx.objects[slot].id), ctx, slot, e, time, reference).value)
  {
    var o := ctx.objects[slot];
    assert ObjectCounted(rows, ctx.captured, o);
    var r := ApplyAdvances(ks(o.id), ctx, slot, e, time, reference);
    var ctx' := AfterApply(ks(o.id), ctx, slot, e, time, reference).value;
    RowsOwnedExtends(ctx, slot, r, ctx');
    FirstsExtend(ctx, slot, r, ctx');
    StagedExtends(rows, ctx.captured, r);
    ObjectsAdvance(rows, ctx, slot, r, ctx');
    OneMoreDue(ks, ctx.captured, r);
  }

  lemma OneMoreDue<S(!new), E(!new)>(ks: Kinds<S, E>, rows: seq<Row<S>>, r: Row<S>)
    ensures var p := PairOf(r.event);
            DuePairs(ks, Pairs(rows + [r])) == DuePairs(ks, Pairs(rows)) + (if Due(ks(p.0), p.1) then [p] else [])
  {
    PairsConcat(rows, [r]);
    assert Pairs(rows + [r])[..|rows|] == Pairs(rows);
  }

  // ---------------- Committing ----------------

  lemma CommittedConsecutive<S(!new)>(rows: seq<Row<S>>, captured: seq<Row<S>>)
    requires Consecutive(Pairs(rows)) && Insertable(Pairs(rows), Pairs(captured))
    requires forall i :: 0 <= i < |captured| ==> StagedAfter(rows, captured, i)
    ensures Consecutive(Pairs(rows) + Pairs(captured))
  {
    var all := Pairs(rows) + Pairs(captured);
    InsertableExact(Pairs(rows), Pairs(captured));
    forall i | 0 <= i < |all|
      ensures Preceded(all, i)
    {
      if i < |rows| {
        assert all[..i] == Pairs(rows)[..i] && Preceded(Pairs(rows), i);
      } else {
        StagedPreceded(rows, captured, i - |rows|);
      }
    }
  }

  lemma StagedPreceded<S(!new)>(rows: seq<Row<S>>, captured: seq<Row<S>>, i: nat)
    requires i < |captured| && StagedAfter(rows, captured, i)
    ensures Preceded(Pairs(rows) + Pairs(captured), |rows| + i)
  {
    var all := Pairs(rows) + Pairs(captured);
    var e := captured[i].event;
    assert all[|rows| + i] == PairOf(e);
    PairsConcat(rows, captured[..i]);
    assert Pairs(captured[..i]) == Pairs(captured)[..i];
    assert all[..|rows| + i] == Pairs(rows + captured[..i]);
    PairsMember(rows + captured[..i], (e.aggregateId, e.sequence - 1));
  }

  lemma CommitKeepsStore<S(!new), E(!new)>(ks: Kinds<S, E>, w: World<S>, c: int, ctx: Ctx<S>, nows: seq<int>)
    requires StoreCounted(ks, w) && CtxCounted(ks, w.rows, ctx) && |nows| == |ctx.captured|
    ensures StoreCounted(ks, AfterCommit(w, c, ctx, nows))
  {
    if Commits(w, ctx) {
      CommittedConsecutive(w.rows, ctx.captured);
      StampedPairs(w.rows, ctx.captured, nows);
      DuePairsConcat(ks, Pairs(w.rows), Pairs(ctx.captured));
      SnapshotPairsConcat(w.snapshots, ctx.snapshots);
    }
  }

  // The first event that an object staged.
  lemma FirstIsStaged<S>(ctx: Ctx<S>, slot: int) returns (r: Row<S>)
    requires RowsOwned(ctx) && FirstsStaged(ctx) && Dirty(ctx, slot)
    ensures r in ctx.captured && r.slot == slot && PairOf(r.event) == (ctx.objects[slot].id, ctx.objects[slot].base + 1)
  {
    assert FirstStaged(ctx, slot);
    r :| r in ctx.captured && r.slot == slot && r.event.sequence == ctx.objects[slot].base + 1;
    assert Owned(ctx, r);
  }

  // What passes the UNIQUE constraint was not there before, and is there after.
  lemma NewPair<S(!new)>(rows: seq<Row<S>>, captured: seq<Row<S>>, nows: seq<int>, r: Row<S>)
    requires Distinct(Pairs(rows)) && Insertable(Pairs(rows), Pairs(captured)) && |nows| == |captured| && r in captured
    ensures !HasPair(rows, r.event.aggregateId, r.event.sequence)
    ensures HasPair(rows + Stamped(captured, nows), r.event.aggregateId, r.event.sequence)
  {
    InsertableExact(Pairs(rows), Pairs(captured));
    var pairs := Pairs(rows) + Pairs(captured);
    var i :| 0 <= i < |captured| && captured[i] == r;
    assert pairs[|rows| + i] == PairOf(r.event);
    PairsMember(rows, PairOf(r.event));
    assert PairOf(r.event) !in Pairs(rows) by {
      assert forall j :: 0 <= j < |rows| ==> Pairs(rows)[j] == pairs[j];
    }
    StampedPairs(rows, captured, nows);
    PairsMember(rows + Stamped(captured, nows), PairOf(r.event));
  }

  // A context that commits is the first to commit what its objects have staged.
  lemma NewWins<S(!new)>(w: World<S>, c: int, ctx: Ctx<S>, nows: seq<int>, win: Win)
    requires RowsOwned(ctx) && FirstsStaged(ctx) && |nows| == |ctx.captured| && Distinct(Pairs(w.rows))
    requires Insertable(Pairs(w.rows), Pairs(ctx.captured)) && win in Wins(c, ctx)
    ensures win.ctx == c && !HasPair(w.rows, win.id, win.base + 1)
    ensures HasPair(w.rows + Stamped(ctx.captured, nows), win.id, win.base + 1)
  {
    var slot :| Dirty(ctx, slot) && win == Win(c, ctx.objects[slot].id, ctx.objects[slot].base);
    var r := FirstIsStaged(ctx, slot);
    NewPair(w.rows, ctx.captured, nows, r);
  }

  lemma StillOneWinner<S>(rows: seq<Row<S>>, c: int, wins: set<Win>, added: set<Win>)
    requires OneWinner(wins)
    requires forall win :: win in wins ==> HasPair(rows, win.id, win.base + 1)
    requires forall win :: win in added ==> win.ctx == c && !HasPair(rows, win.id, win.base + 1)
    ensures OneWinner(wins + added)
  {
    forall a, b | a in wins + added && b in wins + added && a.id == b.id && a.base == b.base
      ensures a.ctx == b.ctx
    {
      assert HasPair(rows, a.id, a.base + 1) == HasPair(rows, b.id, b.base + 1);
    }
  }

  lemma CommitKeepsWins<S(!new), E(!new)>(ks: Kinds<S, E>, w: World<S>, c: int, ctx: Ctx<S>, nows: seq<int>)
    requires WinsOk(w) && CtxCounted(ks, w.rows, ctx) && |nows| == |ctx.captured| && Distinct(Pairs(w.rows))
    ensures WinsOk(AfterCommit(w, c, ctx, nows))
  {
    if Commits(w, ctx) {
      var rows := w.rows + Stamped(ctx.captured, nows);
      forall win | win in w.wins
        ensures HasPair(rows, win.id, win.base + 1)
      {
        HasPairGrows(w.rows, rows, win.id, win.base + 1);
      }
      forall win | win in Wins(c, ctx)
        ensures win.ctx == c && !HasPair(w.rows, win.id, win.base + 1) && HasPair(rows, win.id, win.base + 1)
      {
        NewWins(w, c, ctx, nows, win);
      }
      StillOneWinner(w.rows, c, w.wins, Wins(c, ctx));
    }
  }

  // ---------------- Every move keeps it ----------------

  lemma CtxCountedGrows<S(!new), E(!new)>(ks: Kinds<S, E>, rows: seq<Row<S>>, rows': seq<Row<S>>, ctx: Ctx<S>)
    requires CtxCounted(ks, rows, ctx) && rows <= rows'
    ensures CtxCounted(ks, rows', ctx)
  {
    assert forall r :: r in rows ==> r in rows';
    forall i | 0 <= i < |ctx.captured|
      ensures StagedAfter(rows', ctx.captured, i)
    {
      assert StagedAfter(rows, ctx.captured, i);
      var e := ctx.captured[i].event;
      if e.sequence != 1 {
        HasPairGrows(rows + ctx.captured[..i], rows' + ctx.captured[..i], e.aggregateId, e.sequence - 1);
      }
    }
    forall slot | slot in ctx.objects
      ensures ObjectCounted(rows', ctx.captured, ctx.objects[slot])
    {
      assert ObjectCounted(rows, ctx.captured, ctx.objects[slot]);
    }
  }

  lemma OwnCounted<S(!new), E(!new)>(ks: Kinds<S, E>, w: World<S>, m: Move<E>)
    requires Counted(ks, w) && Next(ks, w, m).Some? && !m.Commit?
    ensures m.c in Next(ks, w, m).value.contexts ==> CtxCounted(ks, w.rows, Next(ks, w, m).value.contexts[m.c])
  {
    if !m.Begin? {
      var ctx := w.contexts[m.c];
      assert CtxCounted(ks, w.rows, ctx);
      match m
      case Create(c, slot, id) => NewObjectCounted(ks, w.rows, ctx, slot, Live(id, ks(id).initial, 0, 0));
      case ReadSnapshot(c, slot, id) =>
        if MostRecent(w.snapshots, id).Some? {
          SnapshotCounted(ks, w, id);
        }
        NewObjectCounted(ks, w.rows, ctx, slot, Half(id, MostRecent(w.snapshots, id)));
      case ReadEvents(c, slot) =>
        var o := ctx.objects[slot];
        var state := Rebuild(ks(o.id), ks(o.id).initial, Stored(w, o.id, o.snapshot));
        if state.Some? {
          LoadedCounted(ks, w, ctx, slot, state.value);
        }
      case Apply(c, slot, e, time, reference) =>
        if AfterApply(ks(ctx.objects[slot].id), ctx, slot, e, time, reference).Some? {
          ApplyCounted(ks, w.rows, ctx, slot, e, time, reference);
        }
      case _ =>
    }
  }

  lemma MoveFrames<S(!new), E(!new)>(ks: Kinds<S, E>, w: World<S>, m: Move<E>)
    requires Next(ks, w, m).Some?
    ensures var v := Next(ks, w, m).value;
            && w.rows <= v.rows
            && (forall c :: c in v.contexts && c != m.c ==> c in w.contexts && v.contexts[c] == w.contexts[c])
            && (forall c :: c in v.contexts && c in v.ended ==> c in w.contexts && c in w.ended)
            && (if m.Commit? then
                  m.c in w.contexts && |m.nows| == |w.contexts[m.c].captured|
                  && m.c !in v.contexts && v == AfterCommit(w, m.c, w.contexts[m.c], m.nows)
                else v.rows == w.rows && v.snapshots == w.snapshots && v.wins == w.wins && w.ended <= v.ended)
  {
  }

  lemma OthersCounted<S(!new), E(!new)>(ks: Kinds<S, E>, w: World<S>, m: Move<E>)
    requires Counted(ks, w) && Next(ks, w, m).Some?
    ensures var v := Next(ks, w, m).value;
            && (forall c :: c in v.contexts ==> c !in v.ended)
            && (forall c :: c in v.contexts && c != m.c ==> CtxCounted(ks, v.rows, v.contexts[c]))
            && w.rows <= v.rows && (m.Commit? ==> m.c !in v.contexts)
  {
    var v := Next(ks, w, m).value;
    MoveFrames(ks, w, m);
    forall c | c in v.contexts && c != m.c
      ensures CtxCounted(ks, v.rows, v.contexts[c])
    {
      CtxCountedGrows(ks, w.rows, v.rows, w.contexts[c]);
    }
  }

  lemma StoreStaysCounted<S(!new), E(!new)>(ks: Kinds<S, E>, w: World<S>, m: Move<E>)
    requires Counted(ks, w) && Next(ks, w, m).Some?
    ensures StoreCounted(ks, Next(ks, w, m).value) && WinsOk(Next(ks, w, m).value)
    ensures !m.Commit? ==> Next(ks, w, m).value.rows == w.rows
  {
    MoveFrames(ks, w, m);
    if m.Commit? {
      CommitKeepsStore(ks, w, m.c, w.contexts[m.c], m.nows);
      CommitKeepsWins(ks, w, m.c, w.contexts[m.c], m.nows);
    }
  }

  lemma MoveKeepsCounted<S(!new), E(!new)>(ks: Kinds<S, E>, w: World<S>, m: Move<E>)
    requires Counted(ks, w) && Next(ks, w, m).Some?
    ensures Counted(ks, Next(ks, w, m).value)
  {
    StoreStaysCounted(ks, w, m);
    OthersCounted(ks, w, m);
    if !m.Commit? {
      OwnCounted(ks, w, m);
    }
  }

  /** Every run keeps it: no condition on codecs, states or times. */
  lemma {:induction false} RunKeepsCounted<S(!new), E(!new)>(ks: Kinds<S, E>, moves: seq<Move<E>>)
    requires Run(ks, moves).Some?
    ensures Counted(ks, Run(ks, moves).value)
  {
    if moves != [] {
      var init := moves[..|moves| - 1];
      RunKeepsCounted(ks, init);
      MoveKeepsCounted(ks, Run(ks, init).value, moves[|moves| - 1]);
    }
  }

  // ---------------- Nothing committed goes away ----------------

  lemma MoveGrows<S(!new), E(!new)>(ks: Kinds<S, E>, w: World<S>, m: Move<E>)
    requires Next(ks, w, m).Some?
    ensures w.rows <= Next(ks, w, m).value.rows && w.snapshots <= Next(ks, w, m).value.snapshots
  {
  }

  lemma {:induction false} RunGrows<S(!new), E(!new)>(ks: Kinds<S, E>, moves: seq<Move<E>>, n: nat)
    requires n <= |moves| && Run(ks, moves).Some?
    ensures Run(ks, moves[..n]).Some?
    ensures var w := Run(ks, moves[..n]).value;
            w.rows <= Run(ks, moves).value.rows && w.snapshots <= Run(ks, moves).value.snapshots
  {
    if n == |moves| {
      assert moves[..n] == moves;
    } else {
      var init := moves[..|moves| - 1];
      RunGrows(ks, init, n);
      assert init[..n] == moves[..n];
      MoveGrows(ks, Run(ks, init).value, moves[|moves| - 1]);
    }
  }
}
