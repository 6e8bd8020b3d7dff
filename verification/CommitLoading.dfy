/** One commit, and the load after it: exactly when the load gives what the saved events give. */
module CommitLoading {
  import opened Wrappers
  import opened Records
  import opened EventStreams
  import opened Aggregates
  import opened Streams
  import opened StreamSequences
  import opened StreamMeanings

  // The last of an aggregate's own rows at which a snapshot is due, or -1.
  ghost function LastDue<S(!new), E(!new)>(k: Kind<S, E>, own: seq<Row<S>>): (j: int)
    ensures -1 <= j < |own| && (0 <= j ==> Due(k, own[j].event.sequence))
    ensures forall i :: j < i < |own| ==> !Due(k, own[i].event.sequence)
  {
    if own == [] then -1
    else if Due(k, own[|own| - 1].event.sequence) then |own| - 1
    else LastDue(k, own[..|own| - 1])
  }

  /** From the last due row on, the saved events lead from the row's state to where they all lead. */
  ghost predicate CommitLoads<S(!new), E(!new)>(k: Kind<S, E>, id: int, captured: seq<Row<S>>, nows: seq<int>)
    requires |nows| == |captured|
  {
    var own, saved := Stream(captured, id), Saved(captured, nows, id);
    var j := LastDue(k, own);
    0 <= j ==> Replay(k, own[j].after, saved[j + 1..]) == Replay(k, own[0].before, saved)
  }

  lemma LatestIsNew(older: seq<Snapshot>, newer: seq<Snapshot>, id: int, n: int, s: Snapshot)
    requires forall x :: x in older && x.aggregateId == id ==> x.sequence <= n
    requires s in newer && s.aggregateId == id && n < s.sequence
    ensures var latest := MostRecent(older + newer, id);
            latest.Some? && latest.value in newer && latest.value.aggregateId == id
            && s.sequence <= latest.value.sequence
  {
    assert s in older + newer;
  }

  lemma MeantAreOld<S(!new), E(!new)>(ks: Kinds<S, E>, w: World<S>, id: int)
    requires SnapshotsMean(ks, w, id)
    ensures forall x :: x in w.snapshots && x.aggregateId == id ==> x.sequence <= |Stream(w.rows, id)|
  {
    forall x | x in w.snapshots && x.aggregateId == id
      ensures x.sequence <= |Stream(w.rows, id)|
    {
      assert Means(ks(id), id, w.rows, x);
    }
  }

  lemma DueIsTaken<S(!new), E(!new)>(k: Kind<S, E>, id: int, ctx: Ctx<S>, j: nat) returns (s: Snapshot)
    requires SnapshotsTaken(k, id, ctx) && j < |Stream(ctx.captured, id)|
    requires Due(k, Stream(ctx.captured, id)[j].event.sequence)
    ensures s in ctx.snapshots && SnapshotOf(k, Stream(ctx.captured, id)[j], s)
  {
    StreamMembers(ctx.captured, id);
    assert Stream(ctx.captured, id)[j] in Stream(ctx.captured, id);
    assert HasSnapshotOf(k, ctx.snapshots, Stream(ctx.captured, id)[j]);
    s :| s in ctx.snapshots && SnapshotOf(k, Stream(ctx.captured, id)[j], s);
  }

  // No due row comes after the last one, so a snapshot that is not from before it is its own.
  lemma TakenAtLastDue<S(!new), E(!new)>(k: Kind<S, E>, rows: seq<Row<S>>, captured: seq<Row<S>>, nows: seq<int>,
                                         id: int, s: Snapshot)
    requires |nows| == |captured| && Consecutive(Pairs(rows + Stamped(captured, nows)))
    requires 0 <= LastDue(k, Stream(captured, id)) && TakenAt(k, captured, s) && s.aggregateId == id
    requires |Stream(rows, id)| + LastDue(k, Stream(captured, id)) < s.sequence
    ensures SnapshotOf(k, Stream(captured, id)[LastDue(k, Stream(captured, id))], s)
  {
    var r :| r in captured && SnapshotOf(k, r, s);
    var i := OwnRow(rows, captured, nows, id, r);
  }

  // The latest snapshot after a commit with a due row is the one of its last due row.
  lemma LatestIsLastDue<S(!new), E(!new)>(ks: Kinds<S, E>, id: int, w: World<S>, ctx: Ctx<S>, nows: seq<int>)
    requires SnapshotsMean(ks, w, id) && SnapshotsTaken(ks(id), id, ctx)
    requires |nows| == |ctx.captured| && Consecutive(Pairs(w.rows + Stamped(ctx.captured, nows)))
    requires 0 <= LastDue(ks(id), Stream(ctx.captured, id))
    ensures var own, latest := Stream(ctx.captured, id), MostRecent(w.snapshots + ctx.snapshots, id);
            latest.Some? && SnapshotOf(ks(id), own[LastDue(ks(id), own)], latest.value)
  {
    var j := LastDue(ks(id), Stream(ctx.captured, id));
    var s := DueIsTaken(ks(id), id, ctx, j);
    OwnPlace(w.rows, ctx.captured, nows, id, j);
    MeantAreOld(ks, w, id);
    LatestIsNew(w.snapshots, ctx.snapshots, id, |Stream(w.rows, id)|, s);
    var latest := MostRecent(w.snapshots + ctx.snapshots, id).value;
    TakenAtLastDue(ks(id), w.rows, ctx.captured, nows, id, latest);
  }

  lemma TailAfterCommit<S(!new)>(rows: seq<Row<S>>, captured: seq<Row<S>>, nows: seq<int>, id: int, q: nat, m: nat)
    requires |nows| == |captured| && q <= |Stream(captured, id)| && m == |Stream(rows, id)| + q
    ensures m <= |Stream(rows + Stamped(captured, nows), id)|
    ensures Events(Stream(rows + Stamped(captured, nows), id))[m..] == Saved(captured, nows, id)[q..]
  {
    StreamConcat(rows, Stamped(captured, nows), id);
    StampedStream(captured, nows, id);
  }

  // A load from the snapshot of own row j replays what was saved after it.
  lemma LoadFromOwn<S(!new), E(!new)>(ks: Kinds<S, E>, id: int, rows: seq<Row<S>>, captured: seq<Row<S>>,
                                      nows: seq<int>, v: World<S>, j: nat, s: Snapshot)
    requires |nows| == |captured| && v.rows == rows + Stamped(captured, nows) && Consecutive(Pairs(v.rows))
    requires j < |Stream(captured, id)| && Faithful(ks(id)) && SnapshotOf(ks(id), Stream(captured, id)[j], s)
    requires HasPair(v.rows, id, s.sequence)
    ensures Rebuild(ks(id), ks(id).initial, Stored(v, id, Some(s)))
            == Replay(ks(id), Stream(captured, id)[j].after, Saved(captured, nows, id)[j + 1..])
  {
    LoadedSequence(v, id, Some(s));
    Decodes(ks(id), Stream(captured, id)[j], s);
    OwnPlace(rows, captured, nows, id, j);
    TailAfterCommit(rows, captured, nows, id, j + 1, s.sequence);
  }

  // ---------------- After a run ----------------

  // A context that commits after a run whose snapshots are meant.
  ghost predicate CommitsAfter<S(!new), E(!new)>(ks: Kinds<S, E>, moves: seq<Move<E>>, c: int, nows: seq<int>,
                                                 id: int) {
    && Faithful(ks(id)) && RunSavesMean(ks, moves, id) && Run(ks, moves).Some?
    && var w := Run(ks, moves).value;
       c in w.contexts && Commits(w, w.contexts[c]) && |nows| == |w.contexts[c].captured|
  }

  lemma ReadyAfter<S(!new), E(!new)>(ks: Kinds<S, E>, moves: seq<Move<E>>, c: int, nows: seq<int>, id: int)
    requires CommitsAfter(ks, moves, c, nows, id)
    ensures var w := Run(ks, moves).value;
            && ReadyToMean(ks, id, w, w.contexts[c], nows) && SnapshotsMean(ks, w, id)
            && Consecutive(Pairs(w.rows + Stamped(w.contexts[c].captured, nows)))
            && StoreCounted(ks, AfterCommit(w, c, w.contexts[c], nows))
  {
    RunKeepsCounted(ks, moves);
    RunKeepsMeaning(ks, moves, id);
    var w := Run(ks, moves).value;
    assert CtxMeans(ks(id), id, w.rows, w.contexts[c]) && CtxCounted(ks, w.rows, w.contexts[c]);
    CommittedCount(ks, id, w, w.contexts[c], nows);
    CommitKeepsStore(ks, w, c, w.contexts[c], nows);
  }

  lemma LatestAfter<S(!new), E(!new)>(ks: Kinds<S, E>, moves: seq<Move<E>>, c: int, nows: seq<int>, id: int)
    returns (s: Snapshot)
    requires CommitsAfter(ks, moves, c, nows, id)
    requires 0 <= LastDue(ks(id), Stream(Run(ks, moves).value.contexts[c].captured, id))
    ensures var w := Run(ks, moves).value;
            var own, v := Stream(w.contexts[c].captured, id), AfterCommit(w, c, w.contexts[c], nows);
            && MostRecent(v.snapshots, id) == Some(s) && SnapshotOf(ks(id), own[LastDue(ks(id), own)], s)
            && HasPair(v.rows, id, s.sequence) && Consecutive(Pairs(v.rows))
  {
    ReadyAfter(ks, moves, c, nows, id);
    var w := Run(ks, moves).value;
    LatestIsLastDue(ks, id, w, w.contexts[c], nows);
    SnapshotCounted(ks, AfterCommit(w, c, w.contexts[c], nows), id);
    s := MostRecent(w.snapshots + w.contexts[c].snapshots, id).value;
  }

  lemma LoadFromLastDue<S(!new), E(!new)>(ks: Kinds<S, E>, moves: seq<Move<E>>, c: int, nows: seq<int>, id: int,
                                          w: World<S>, j: nat)
    requires CommitsAfter(ks, moves, c, nows, id) && w == Run(ks, moves).value
    requires j == LastDue(ks(id), Stream(w.contexts[c].captured, id))
    ensures Rebuild(ks(id), ks(id).initial, LoadNow(AfterCommit(w, c, w.contexts[c], nows), id))
            == Replay(ks(id), Stream(w.contexts[c].captured, id)[j].after,
                      Saved(w.contexts[c].captured, nows, id)[j + 1..])
  {
    var s := LatestAfter(ks, moves, c, nows, id);
    var ctx := w.contexts[c];
    LoadFromOwn(ks, id, w.rows, ctx.captured, nows, AfterCommit(w, c, ctx, nows), j, s);
  }

  lemma FullReplayAfter<S(!new), E(!new)>(ks: Kinds<S, E>, moves: seq<Move<E>>, c: int, nows: seq<int>, id: int)
    requires CommitsAfter(ks, moves, c, nows, id) && Stream(Run(ks, moves).value.contexts[c].captured, id) != []
    ensures var w := Run(ks, moves).value;
            var captured := w.contexts[c].captured;
            FullReplay(ks, AfterCommit(w, c, w.contexts[c], nows).rows, id)
            == Replay(ks(id), Stream(captured, id)[0].before, Saved(captured, nows, id))
  {
    ReadyAfter(ks, moves, c, nows, id);
    var w := Run(ks, moves).value;
    var ctx := w.contexts[c];
    var all, own, saved := w.rows + Stamped(ctx.captured, nows), Stream(ctx.captured, id), Saved(ctx.captured, nows,
                                                                                                 id);
    EventsAfterCommit(w.rows, ctx.captured, nows, id, |own|);
    FoldOfOwn(ks, id, w.rows, ctx, nows, |own|, |Stream(all, id)|);
    FoldIsFullReplay(ks, all, id);
    assert saved[..|own|] == saved;
  }

  lemma NoLastDue<S(!new), E(!new)>(k: Kind<S, E>, id: int, captured: seq<Row<S>>, nows: seq<int>)
    requires |nows| == |captured| && LastDue(k, Stream(captured, id)) < 0
    ensures CommitMeans(k, id, captured, nows)
  {
  }

  lemma LoadWithoutDue<S(!new), E(!new)>(ks: Kinds<S, E>, moves: seq<Move<E>>, c: int, nows: seq<int>, id: int)
    requires CommitsAfter(ks, moves, c, nows, id)
    requires LastDue(ks(id), Stream(Run(ks, moves).value.contexts[c].captured, id)) < 0
    ensures var w := Run(ks, moves).value;
            var v := AfterCommit(w, c, w.contexts[c], nows);
            Rebuild(ks(id), ks(id).initial, LoadNow(v, id)) == FullReplay(ks, v.rows, id)
  {
    ReadyAfter(ks, moves, c, nows, id);
    var w := Run(ks, moves).value;
    NoLastDue(ks(id), id, w.contexts[c].captured, nows);
    CommitMeansExactly(ks, id, w, c, w.contexts[c], nows);
    TornLoad(ks, AfterCommit(w, c, w.contexts[c], nows), AfterCommit(w, c, w.contexts[c], nows), id);
  }

  lemma LoadsAlike<S(!new), E(!new)>(k: Kind<S, E>, id: int, captured: seq<Row<S>>, nows: seq<int>, j: nat,
                                     loaded: Option<S>, full: Option<S>)
    requires |nows| == |captured| && j == LastDue(k, Stream(captured, id))
    requires loaded == Replay(k, Stream(captured, id)[j].after, Saved(captured, nows, id)[j + 1..])
    requires full == Replay(k, Stream(captured, id)[0].before, Saved(captured, nows, id))
    ensures loaded == full <==> CommitLoads(k, id, captured, nows)
  {
  }

  // What loading gives after a commit with a due row, and what the saved events give.
  lemma LoadedAndFull<S(!new), E(!new)>(ks: Kinds<S, E>, moves: seq<Move<E>>, c: int, nows: seq<int>, id: int,
                                        w: World<S>, v: World<S>, j: nat)
    returns (loaded: Option<S>, full: Option<S>)
    requires CommitsAfter(ks, moves, c, nows, id) && w == Run(ks, moves).value
    requires v == AfterCommit(w, c, w.contexts[c], nows) && j == LastDue(ks(id), Stream(w.contexts[c].captured, id))
    ensures loaded == Rebuild(ks(id), ks(id).initial, LoadNow(v, id)) && full == FullReplay(ks, v.rows, id)
    ensures var captured := w.contexts[c].captured;
            && loaded == Replay(ks(id), Stream(captured, id)[j].after, Saved(captured, nows, id)[j + 1..])
            && full == Replay(ks(id), Stream(captured, id)[0].before, Saved(captured, nows, id))
  {
    LoadFromLastDue(ks, moves, c, nows, id, w, j);
    FullReplayAfter(ks, moves, c, nows, id);
    loaded, full := Rebuild(ks(id), ks(id).initial, LoadNow(v, id)), FullReplay(ks, v.rows, id);
  }

  lemma LoadWithDue<S(!new), E(!new)>(ks: Kinds<S, E>, moves: seq<Move<E>>, c: int, nows: seq<int>, id: int,
                                      w: World<S>, v: World<S>, j: nat)
    requires CommitsAfter(ks, moves, c, nows, id) && w == Run(ks, moves).value
    requires v == AfterCommit(w, c, w.contexts[c], nows) && j == LastDue(ks(id), Stream(w.contexts[c].captured, id))
    ensures Rebuild(ks(id), ks(id).initial, LoadNow(v, id)) == FullReplay(ks, v.rows, id)
            <==> CommitLoads(ks(id), id, w.contexts[c].captured, nows)
  {
    var loaded, full := LoadedAndFull(ks, moves, c, nows, id, w, v, j);
    LoadsAlike(ks(id), id, w.contexts[c].captured, nows, j, loaded, full);
  }

  /**
   From every store that a run with meant snapshots leaves, and for any commit, at any sequence and of any number of
   events: loading afterwards gives what the saved events give exactly when the commit has no due row for the aggregate
   or its saved events lead from the last due row's state to where all of them lead.
   */
  lemma {:induction false} LoadAfterCommitExactly<S(!new), E(!new)>(ks: Kinds<S, E>, moves: seq<Move<E>>, c: int,
                                                                    nows: seq<int>, id: int)
    requires CommitsAfter(ks, moves, c, nows, id)
    ensures var w := Run(ks, moves).value;
            var v := AfterCommit(w, c, w.contexts[c], nows);
            Rebuild(ks(id), ks(id).initial, LoadNow(v, id)) == FullReplay(ks, v.rows, id)
            <==> CommitLoads(ks(id), id, w.contexts[c].captured, nows)
  {
    var w := Run(ks, moves).value;
    var j := LastDue(ks(id), Stream(w.contexts[c].captured, id));
    if j < 0 {
      LoadWithoutDue(ks, moves, c, nows, id);
    } else {
      LoadWithDue(ks, moves, c, nows, id, w, AfterCommit(w, c, w.contexts[c], nows), j);
    }
  }
}
