/**
 Why events with a zero time need care: the time that is saved is not the time that was applied. Events that do the same
 at both times change no snapshot's meaning, and with a snapshot at every event only they do.
 */
module ZeroTimes {
  import opened Wrappers
  import opened Records
  import opened EventStreams
  import opened Aggregates
  import opened Streams
  import opened StreamSequences
  import opened StreamMeanings
  import opened CommitLoading
  import opened StreamReplays

  // ---------------- An aggregate's own rows, and what is saved for them ----------------

  lemma {:induction false} StampedRow<S(!new)>(captured: seq<Row<S>>, nows: seq<int>, id: int, j: nat) returns (i: nat)
    requires |nows| == |captured| && j < |Stream(captured, id)|
    ensures i < |captured| && captured[i] == Stream(captured, id)[j]
    ensures Saved(captured, nows, id)[j] == Stamp(captured[i].event, nows[i])
    decreases |captured|
  {
    var n := |captured| - 1;
    var init := Stream(captured[..n], id);
    assert Stamped(captured, nows)[..n] == Stamped(captured[..n], nows[..n]);
    StampedStream(captured[..n], nows[..n], id);
    if j < |init| {
      i := StampedRow(captured[..n], nows[..n], id, j);
    } else {
      i := n;
    }
  }

  // What is known of a context that commits when all that was saved before was alike.
  ghost predicate OwnReady<S(!new), E(!new)>(k: Kind<S, E>, id: int, rows: seq<Row<S>>, captured: seq<Row<S>>,
                                             nows: seq<int>) {
    && |nows| == |captured| && Consecutive(Pairs(rows)) && Consecutive(Pairs(rows + Stamped(captured, nows)))
    && forall i :: 0 <= i < |captured| ==> StagedOk(k, id, rows, captured, i)
  }

  lemma ReadyOwn<S(!new), E(!new)>(ks: Kinds<S, E>, id: int, w: World<S>, ctx: Ctx<S>, nows: seq<int>)
    requires StoreCounted(ks, w) && CtxCounted(ks, w.rows, ctx) && CtxOk(ks(id), id, w.rows, ctx)
    requires Commits(w, ctx) && |nows| == |ctx.captured|
    ensures OwnReady(ks(id), id, w.rows, ctx.captured, nows)
  {
    CommittedConsecutive(w.rows, ctx.captured);
    StampedPairs(w.rows, ctx.captured, nows);
  }

  // Own row j starts where own row j - 1 ends, and its own event leads on.
  lemma OwnJoined<S(!new), E(!new)>(k: Kind<S, E>, id: int, rows: seq<Row<S>>, captured: seq<Row<S>>, nows: seq<int>,
                                    j: nat)
    requires OwnReady(k, id, rows, captured, nows) && j < |Stream(captured, id)|
    ensures Stepped(k, Stream(captured, id)[j])
    ensures 0 < j ==> Stream(captured, id)[j].before == Stream(captured, id)[j - 1].after
  {
    var i := StampedRow(captured, nows, id, j);
    StreamMembers(captured, id);
    assert captured[i] in Stream(captured, id);
    assert StagedOk(k, id, rows, captured, i);
    if 0 < j {
      OwnPlace(rows, captured, nows, id, j);
      OwnPredecessor(k, id, rows, captured, nows, i, j);
    }
  }

  lemma OwnPredecessor<S(!new), E(!new)>(k: Kind<S, E>, id: int, rows: seq<Row<S>>, captured: seq<Row<S>>,
                                         nows: seq<int>, i: nat, j: nat)
    requires |nows| == |captured| && Consecutive(Pairs(rows)) && Consecutive(Pairs(rows + Stamped(captured, nows)))
    requires i < |captured| && 0 < j < |Stream(captured, id)| && captured[i] == Stream(captured, id)[j]
    requires PairOf(captured[i].event) == (id, |Stream(rows, id)| + j + 1)
    requires Continues(k, rows + captured[..i], captured[i])
    ensures captured[i].before == Stream(captured, id)[j - 1].after
  {
    var p :| p in rows + captured[..i] && Precedes(p, captured[i]);
    if p in rows {
      RowInStream(rows, p);
    } else {
      assert p in captured;
      var m := OwnRow(rows, captured, nows, id, p);
    }
  }

  // ---------------- Saved alike, snapshots mean what they say ----------------

  lemma {:induction false} AlikeReplays<S(!new), E(!new)>(k: Kind<S, E>, id: int, rows: seq<Row<S>>,
                                                          captured: seq<Row<S>>, nows: seq<int>, j: nat)
    requires OwnReady(k, id, rows, captured, nows) && j < |Stream(captured, id)|
    requires forall i :: 0 <= i < |captured| && captured[i].event.aggregateId == id ==> Alike(k, captured[i], nows[i])
    ensures Replay(k, Stream(captured, id)[0].before, Saved(captured, nows, id)[..j + 1])
            == Some(Stream(captured, id)[j].after)
  {
    var own, saved := Stream(captured, id), Saved(captured, nows, id);
    var i := StampedRow(captured, nows, id, j);
    StreamMembers(captured, id);
    assert own[j] in own;
    OwnJoined(k, id, rows, captured, nows, j);
    assert Alike(k, captured[i], nows[i]);
    if 0 < j {
      AlikeReplays(k, id, rows, captured, nows, j - 1);
    }
    assert saved[..j + 1] == saved[..j] + [saved[j]];
    ReplayLast(k, own[0].before, saved[..j], own[j].before, saved[j]);
  }

  lemma AlikeCommitMeans<S(!new), E(!new)>(k: Kind<S, E>, id: int, rows: seq<Row<S>>, captured: seq<Row<S>>,
                                           nows: seq<int>)
    requires OwnReady(k, id, rows, captured, nows)
    requires forall i :: 0 <= i < |captured| && captured[i].event.aggregateId == id ==> Alike(k, captured[i], nows[i])
    ensures CommitMeans(k, id, captured, nows)
  {
    forall j | 0 <= j < |Stream(captured, id)|
      ensures MeansAt(k, Stream(captured, id), Saved(captured, nows, id), j)
    {
      AlikeReplays(k, id, rows, captured, nows, j);
    }
  }

  /** A run that saves every event of the aggregate alike respects its due snapshots, whatever the frequency. */
  lemma {:induction false} AlikeRunsMean<S(!new), E(!new)>(ks: Kinds<S, E>, moves: seq<Move<E>>, id: int)
    requires Faithful(ks(id)) && RunSavesAlike(ks, moves, id)
    ensures RunSavesMean(ks, moves, id)
  {
    if moves != [] {
      var init, m := moves[..|moves| - 1], moves[|moves| - 1];
      AlikeRunsMean(ks, init, id);
      if Run(ks, init).Some? {
        AlikeMoveMeans(ks, init, m, id);
      }
    }
  }

  lemma AlikeMoveMeans<S(!new), E(!new)>(ks: Kinds<S, E>, moves: seq<Move<E>>, m: Move<E>, id: int)
    requires Faithful(ks(id)) && RunSavesAlike(ks, moves, id) && Run(ks, moves).Some?
    requires SavesAlike(ks, Run(ks, moves).value, m, id)
    ensures SavesMean(ks, Run(ks, moves).value, m, id)
  {
    var w := Run(ks, moves).value;
    RunKeepsCounted(ks, moves);
    RunKeepsInv(ks, moves, id);
    if m.Commit? && m.c in w.contexts && |m.nows| == |w.contexts[m.c].captured| && Commits(w, w.contexts[m.c]) {
      var ctx := w.contexts[m.c];
      assert CtxOk(ks(id), id, w.rows, ctx) && CtxCounted(ks, w.rows, ctx);
      ReadyOwn(ks, id, w, ctx, m.nows);
      AlikeCommitMeans(ks(id), id, w.rows, ctx.captured, m.nows);
    }
  }

  // ---------------- Events with times of their own ----------------

  // The move applies no event with a zero time to the aggregate.
  ghost predicate TimedMove<S(!new), E(!new)>(w: World<S>, m: Move<E>, id: int) {
    m.Apply? && m.c in w.contexts && m.slot in w.contexts[m.c].objects && w.contexts[m.c].objects[m.slot].id == id ==>
      m.time != ZERO_TIME
  }

  ghost predicate RunTimed<S(!new), E(!new)>(ks: Kinds<S, E>, moves: seq<Move<E>>, id: int) {
    moves == [] ||
    (var init := moves[..|moves| - 1];
     && RunTimed(ks, init, id)
     && (Run(ks, init).Some? ==> TimedMove(Run(ks, init).value, moves[|moves| - 1], id)))
  }

  ghost predicate StagedTimed<S(!new)>(w: World<S>, id: int) {
    forall c, r :: c in w.contexts && r in w.contexts[c].captured && r.event.aggregateId == id ==>
      r.event.eventTime != ZERO_TIME
  }

  lemma MoveKeepsTimed<S(!new), E(!new)>(ks: Kinds<S, E>, w: World<S>, m: Move<E>, id: int)
    requires StagedTimed(w, id) && TimedMove(w, m, id) && Next(ks, w, m).Some?
    ensures StagedTimed(Next(ks, w, m).value, id)
  {
    var v := Next(ks, w, m).value;
    forall c, r | c in v.contexts && r in v.contexts[c].captured && r.event.aggregateId == id
      ensures r.event.eventTime != ZERO_TIME
    {
      if c in w.contexts && r in w.contexts[c].captured {
        assert r.event.eventTime != ZERO_TIME;
      }
    }
  }

  /** A run whose events of the aggregate all have times of their own saves them alike, and keeps them so staged. */
  lemma {:induction false} TimedRunsAlike<S(!new), E(!new)>(ks: Kinds<S, E>, moves: seq<Move<E>>, id: int)
    requires RunTimed(ks, moves, id)
    ensures RunSavesAlike(ks, moves, id)
    ensures Run(ks, moves).Some? ==> StagedTimed(Run(ks, moves).value, id)
  {
    if moves != [] {
      var init, m := moves[..|moves| - 1], moves[|moves| - 1];
      TimedRunsAlike(ks, init, id);
      if Run(ks, init).Some? && Next(ks, Run(ks, init).value, m).Some? {
        MoveKeepsTimed(ks, Run(ks, init).value, m, id);
      }
    }
  }

  // ---------------- A snapshot at every event ----------------

  // Where the saved events lead to the states before and after own row j, the row's event was saved alike.
  lemma MeantIsAlike<S(!new), E(!new)>(k: Kind<S, E>, id: int, rows: seq<Row<S>>, captured: seq<Row<S>>, nows: seq<int>,
                                       i: nat)
    requires OwnReady(k, id, rows, captured, nows) && i < |captured| && captured[i].event.aggregateId == id
    requires k.frequency == 1 && CommitMeans(k, id, captured, nows)
    ensures Alike(k, captured[i], nows[i])
  {
    var own, saved := Stream(captured, id), Saved(captured, nows, id);
    var j := OwnRow(rows, captured, nows, id, captured[i]);
    var m := StampedRow(captured, nows, id, j);
    SamePlace(rows, captured, nows, i, m);
    OwnJoined(k, id, rows, captured, nows, j);
    assert MeansAt(k, own, saved, j) && (0 < j ==> MeansAt(k, own, saved, j - 1));
    assert saved[..j + 1] == saved[..j] + [saved[j]];
    ReplayLast(k, own[0].before, saved[..j], own[j].before, saved[j]);
  }

  lemma SamePlace<S(!new)>(rows: seq<Row<S>>, captured: seq<Row<S>>, nows: seq<int>, i: nat, m: nat)
    requires |nows| == |captured| && Distinct(Pairs(rows + Stamped(captured, nows)))
    requires i < |captured| && m < |captured| && captured[i] == captured[m]
    ensures i == m
  {
    var pairs := Pairs(rows + Stamped(captured, nows));
    assert pairs[|rows| + i] == PairOf(captured[i].event) && pairs[|rows| + m] == PairOf(captured[m].event);
  }

  lemma {:induction false} MeantRunsAlike<S(!new), E(!new)>(ks: Kinds<S, E>, moves: seq<Move<E>>, id: int)
    requires Faithful(ks(id)) && ks(id).frequency == 1 && RunSavesMean(ks, moves, id)
    ensures RunSavesAlike(ks, moves, id)
  {
    if moves != [] {
      var init, m := moves[..|moves| - 1], moves[|moves| - 1];
      MeantRunsAlike(ks, init, id);
      if Run(ks, init).Some? {
        MeantMoveIsAlike(ks, init, m, id);
      }
    }
  }

  lemma MeantMoveIsAlike<S(!new), E(!new)>(ks: Kinds<S, E>, moves: seq<Move<E>>, m: Move<E>, id: int)
    requires Faithful(ks(id)) && ks(id).frequency == 1 && RunSavesAlike(ks, moves, id) && Run(ks, moves).Some?
    requires SavesMean(ks, Run(ks, moves).value, m, id)
    ensures SavesAlike(ks, Run(ks, moves).value, m, id)
  {
    var w := Run(ks, moves).value;
    RunKeepsCounted(ks, moves);
    RunKeepsInv(ks, moves, id);
    if m.Commit? && m.c in w.contexts && |m.nows| == |w.contexts[m.c].captured| && Commits(w, w.contexts[m.c]) {
      var ctx := w.contexts[m.c];
      assert CtxOk(ks(id), id, w.rows, ctx) && CtxCounted(ks, w.rows, ctx);
      ReadyOwn(ks, id, w, ctx, m.nows);
      forall i | 0 <= i < |ctx.captured| && ctx.captured[i].event.aggregateId == id
        ensures Alike(ks(id), ctx.captured[i], m.nows[i])
      {
        MeantIsAlike(ks(id), id, w.rows, ctx.captured, m.nows, i);
      }
    }
  }

  /**
   With a snapshot at every event, every snapshot of an aggregate keeps its meaning over a run exactly when every event
   that the run saved for the aggregate does at its saved time what it did at its own. Zero times are the only ones that
   saving changes.
   */
  lemma {:induction false} ZeroTimeExactly<S(!new), E(!new)>(ks: Kinds<S, E>, moves: seq<Move<E>>, id: int)
    requires Faithful(ks(id)) && ks(id).frequency == 1 && Run(ks, moves).Some?
    ensures SnapshotsMean(ks, Run(ks, moves).value, id) <==> RunSavesAlike(ks, moves, id)
  {
    SnapshotsMeanExactly(ks, moves, id);
    if RunSavesMean(ks, moves, id) {
      MeantRunsAlike(ks, moves, id);
    }
    if RunSavesAlike(ks, moves, id) {
      AlikeRunsMean(ks, moves, id);
    }
  }

  // ---------------- One event of the aggregate in the commit ----------------

  lemma {:induction false} OnlyRow<S>(rows: seq<Row<S>>, id: int, i: nat)
    requires i < |rows| && forall j :: 0 <= j < |rows| ==> (rows[j].event.aggregateId == id <==> j == i)
    ensures Stream(rows, id) == [rows[i]]
  {
    var init := rows[..|rows| - 1];
    if i < |init| {
      OnlyRow(init, id, i);
    } else {
      NoRow(init, id);
    }
  }

  lemma {:induction false} NoRow<S>(rows: seq<Row<S>>, id: int)
    requires forall j :: 0 <= j < |rows| ==> rows[j].event.aggregateId != id
    ensures Stream(rows, id) == []
  {
    if rows != [] {
      NoRow(rows[..|rows| - 1], id);
    }
  }

  lemma OnlyOneLoads<S(!new), E(!new)>(k: Kind<S, E>, id: int, captured: seq<Row<S>>, nows: seq<int>, i: nat)
    requires |nows| == |captured| && i < |captured| && k.frequency == 1 && Stepped(k, captured[i])
    requires forall j :: 0 <= j < |captured| ==> (captured[j].event.aggregateId == id <==> j == i)
    ensures CommitLoads(k, id, captured, nows) <==> Alike(k, captured[i], nows[i])
  {
    OnlyRow(captured, id, i);
    OnlyRow(Stamped(captured, nows), id, i);
    var own, saved := Stream(captured, id), Saved(captured, nows, id);
    assert own == [captured[i]] && saved == [Stamp(captured[i].event, nows[i])];
    assert LastDue(k, own) == 0 && saved[1..] == [];
    ReplayLast(k, own[0].before, [], own[0].before, saved[0]);
    assert [] + [saved[0]] == saved;
  }

  /**
   Where a commit saves one event for an aggregate with a snapshot at every event, at whatever sequence and from
   whatever state a run has left, loading it afterwards gives what its events give exactly when that event was saved
   alike.
   */
  lemma {:induction false} OneEventExactly<S(!new), E(!new)>(ks: Kinds<S, E>, moves: seq<Move<E>>, c: int,
                                                             nows: seq<int>, id: int, i: nat)
    requires ks(id).frequency == 1 && CommitsAfter(ks, moves, c, nows, id)
    requires var captured := Run(ks, moves).value.contexts[c].captured;
             && i < |captured|
             && forall j :: 0 <= j < |captured| ==> (captured[j].event.aggregateId == id <==> j == i)
    ensures var w := Run(ks, moves).value;
            var v := AfterCommit(w, c, w.contexts[c], nows);
            Rebuild(ks(id), ks(id).initial, LoadNow(v, id)) == FullReplay(ks, v.rows, id)
            <==> Alike(ks(id), w.contexts[c].captured[i], nows[i])
  {
    var w := Run(ks, moves).value;
    MeantRunsAlike(ks, moves, id);
    RunKeepsCounted(ks, moves);
    RunKeepsInv(ks, moves, id);
    assert CtxOk(ks(id), id, w.rows, w.contexts[c]) && StagedOk(ks(id), id, w.rows, w.contexts[c].captured, i);
    OnlyOneLoads(ks(id), id, w.contexts[c].captured, nows, i);
    LoadAfterCommitExactly(ks, moves, c, nows, id);
  }

  // ---------------- An aggregate for which it matters ----------------

  function ClockReader(): Kind<string, string> {
    Kind("", (s, e, time, reference) => Some(if time == ZERO_TIME then "no time" else "a time"), e => "Noted", e => e,
         (eventType, state) => Some(state), s => Some(s), state => Some(state), 1)
  }

  // One context that creates an aggregate and applies one event with a zero time.
  function OneEvent(): seq<Move<string>> {
    [Begin(1), Create(1, 0, 1), Apply(1, 0, "e", ZERO_TIME, "")]
  }

  lemma RunOneMore<S(!new), E(!new)>(ks: Kinds<S, E>, moves: seq<Move<E>>, m: Move<E>)
    requires Run(ks, moves).Some?
    ensures Run(ks, moves + [m]) == Next(ks, Run(ks, moves).value, m)
    ensures RunSavesMean(ks, moves, 1) && !m.Commit? ==> RunSavesMean(ks, moves + [m], 1)
  {
    assert (moves + [m])[..|moves|] == moves;
  }

  // The store and the context after it.
  lemma OneEventRuns(ks: Kinds<string, string>) returns (w: World<string>)
    requires ks(1) == ClockReader()
    ensures Run(ks, OneEvent()) == Some(w) && RunSavesMean(ks, OneEvent(), 1)
    ensures w.rows == [] && w.snapshots == [] && 1 in w.contexts
    ensures var r := Row(SerializedEvent(0, 1, "Noted", "e", 1, "", ZERO_TIME), "", "no time", 0);
            w.contexts[1].captured == [r] && w.contexts[1].snapshots == [Snapshot(1, "no time", 1)]
  {
    var moves := OneEvent();
    assert moves[..0] == [] && moves[..1] == moves[..0] + [moves[0]] && moves[..2] == moves[..1] + [moves[1]];
    assert moves == moves[..2] + [moves[2]];
    RunOneMore(ks, moves[..0], moves[0]);
    var w1 := Run(ks, moves[..1]).value;
    assert w1.contexts[1] == Ctx(map[], [], []);
    RunOneMore(ks, moves[..1], moves[1]);
    var w2 := Run(ks, moves[..2]).value;
    assert w2.contexts[1].objects[0] == Live(1, "", 0, 0);
    RunOneMore(ks, moves[..2], moves[2]);
    w := Run(ks, moves).value;
  }

  lemma InsertOne(present: seq<Pair>, added: seq<Pair>)
    requires present == [] && |added| == 1
    ensures Insertable(present, added)
  {
    assert added[..0] == [];
  }

  // After the run a load gives something else than the events say, and no codec is to blame.
  ghost predicate LoadDiffers(ks: Kinds<string, string>, moves: seq<Move<string>>, id: int) {
    && (forall i :: Faithful(ks(i)))
    && Run(ks, moves).Some?
    && var w := Run(ks, moves).value;
       Rebuild(ks(id), ks(id).initial, LoadNow(w, id)) != FullReplay(ks, w.rows, id)
  }

  lemma OneEventCommits(ks: Kinds<string, string>)
    requires ks(1) == ClockReader()
    ensures CommitsAfter(ks, OneEvent(), 1, [5], 1)
    ensures var captured := Run(ks, OneEvent()).value.contexts[1].captured;
            |captured| == 1 && captured[0].event.aggregateId == 1 && !Alike(ks(1), captured[0], 5)
  {
    assert Faithful(ClockReader());
    var w := OneEventRuns(ks);
    InsertOne(Pairs(w.rows), Pairs(w.contexts[1].captured));
    InsertOne(SnapshotPairs(w.snapshots), SnapshotPairs(w.contexts[1].snapshots));
  }

  lemma OneEventDiffers(ks: Kinds<string, string>)
    requires ks(1) == ClockReader()
    ensures CommitsAfter(ks, OneEvent(), 1, [5], 1)
    ensures var w := Run(ks, OneEvent()).value;
            var v := AfterCommit(w, 1, w.contexts[1], [5]);
            Rebuild(ks(1), ks(1).initial, LoadNow(v, 1)) != FullReplay(ks, v.rows, 1)
  {
    OneEventCommits(ks);
    OneEventExactly(ks, OneEvent(), 1, [5], 1, 0);
  }

  lemma DiffersAfter(ks: Kinds<string, string>, moves: seq<Move<string>>, c: int, nows: seq<int>, id: int)
    requires CommitsAfter(ks, moves, c, nows, id) && forall i :: Faithful(ks(i))
    requires var w := Run(ks, moves).value;
             var v := AfterCommit(w, c, w.contexts[c], nows);
             Rebuild(ks(id), ks(id).initial, LoadNow(v, id)) != FullReplay(ks, v.rows, id)
    ensures LoadDiffers(ks, moves + [Commit(c, nows)], id)
  {
    RunOneMore(ks, moves, Commit(c, nows));
  }

  lemma DifferingRun() returns (ks: Kinds<string, string>, moves: seq<Move<string>>)
    ensures LoadDiffers(ks, moves, 1)
  {
    ks := id => ClockReader();
    assert Faithful(ClockReader());
    OneEventDiffers(ks);
    DiffersAfter(ks, OneEvent(), 1, [5], 1);
    moves := OneEvent() + [Commit(1, [5])];
  }

  /** An aggregate that keeps whether its event had a time loads otherwise than its event says. */
  lemma ZeroTimeSnapshotDiffers()
    ensures exists ks: Kinds<string, string>, moves: seq<Move<string>>, id :: LoadDiffers(ks, moves, id)
  {
    var ks, moves := DifferingRun();
    assert LoadDiffers(ks, moves, 1);
  }
}
