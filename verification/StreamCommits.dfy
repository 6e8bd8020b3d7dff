/** Exactly when a context commits. */
module StreamCommits {
  import opened EventStreams
  import opened Streams
  import opened StreamSequences
  import opened StreamTheorems

  /**
   What a caller can check before committing: no stream that the context adds to has grown since it was loaded, and
   the context adds to no stream through two objects.
   */
  ghost predicate UpToDate<S>(w: World<S>, ctx: Ctx<S>) {
    && (forall slot :: Dirty(ctx, slot) ==> ctx.objects[slot].base == Length(w, ctx.objects[slot].id))
    && (forall a, b :: Dirty(ctx, a) && Dirty(ctx, b) && a != b ==> ctx.objects[a].id != ctx.objects[b].id)
  }

  lemma EndsAt<S(!new)>(w: World<S>, id: int, sequence: nat)
    requires Consecutive(Pairs(w.rows))
    requires (sequence == 0 || HasPair(w.rows, id, sequence)) && !HasPair(w.rows, id, sequence + 1)
    ensures sequence == Length(w, id)
  {
    EventAt(w, id, sequence);
    EventAt(w, id, sequence + 1);
  }

  // A context that commits was up to date.
  lemma DirtyAtLength<S(!new), E(!new)>(ks: Kinds<S, E>, w: World<S>, ctx: Ctx<S>, slot: int)
    requires StoreCounted(ks, w) && CtxCounted(ks, w.rows, ctx) && Dirty(ctx, slot)
    requires Insertable(Pairs(w.rows), Pairs(ctx.captured))
    ensures ctx.objects[slot].base == Length(w, ctx.objects[slot].id)
  {
    var o := ctx.objects[slot];
    assert ObjectCounted(w.rows, ctx.captured, o);
    var r := FirstIsStaged(ctx, slot);
    NewPair(w.rows, ctx.captured, seq(|ctx.captured|, i => 0), r);
    EndsAt(w, o.id, o.base);
  }

  lemma DistinctRows<S>(rows: seq<Row<S>>, captured: seq<Row<S>>, p: Row<S>, q: Row<S>)
    requires Distinct(Pairs(rows) + Pairs(captured)) && p in captured && q in captured && p != q
    ensures PairOf(p.event) != PairOf(q.event)
  {
    var i :| 0 <= i < |captured| && captured[i] == p;
    var j :| 0 <= j < |captured| && captured[j] == q;
    var pairs := Pairs(rows) + Pairs(captured);
    assert pairs[|rows| + i] == PairOf(p.event) && pairs[|rows| + j] == PairOf(q.event);
  }

  lemma DirtyApart<S(!new), E(!new)>(ks: Kinds<S, E>, w: World<S>, ctx: Ctx<S>, a: int, b: int)
    requires StoreCounted(ks, w) && CtxCounted(ks, w.rows, ctx) && Dirty(ctx, a) && Dirty(ctx, b) && a != b
    requires Insertable(Pairs(w.rows), Pairs(ctx.captured))
    requires ctx.objects[a].base == ctx.objects[b].base
    ensures ctx.objects[a].id != ctx.objects[b].id
  {
    InsertableExact(Pairs(w.rows), Pairs(ctx.captured));
    var r := FirstIsStaged(ctx, a);
    var q := FirstIsStaged(ctx, b);
    DistinctRows(w.rows, ctx.captured, r, q);
  }

  lemma CommitsUpToDate<S(!new), E(!new)>(ks: Kinds<S, E>, w: World<S>, ctx: Ctx<S>)
    requires StoreCounted(ks, w) && CtxCounted(ks, w.rows, ctx) && Commits(w, ctx)
    ensures UpToDate(w, ctx)
  {
    forall slot | Dirty(ctx, slot)
      ensures ctx.objects[slot].base == Length(w, ctx.objects[slot].id)
    {
      DirtyAtLength(ks, w, ctx, slot);
    }
    forall a, b | Dirty(ctx, a) && Dirty(ctx, b) && a != b
      ensures ctx.objects[a].id != ctx.objects[b].id
    {
      if ctx.objects[a].id == ctx.objects[b].id {
        DirtyApart(ks, w, ctx, a, b);
      }
    }
  }

  // Up-to-date contexts stage events that nobody has.
  lemma UpToDateIsNew<S(!new), E(!new)>(ks: Kinds<S, E>, w: World<S>, ctx: Ctx<S>)
    requires StoreCounted(ks, w) && CtxCounted(ks, w.rows, ctx) && UpToDate(w, ctx)
    ensures Distinct(Pairs(ctx.captured))
    ensures forall p :: p in Pairs(ctx.captured) ==> p !in Pairs(w.rows)
  {
    var pairs := Pairs(ctx.captured);
    forall i, j | 0 <= i < j < |pairs|
      ensures pairs[i] != pairs[j]
    {
      var p, q := ctx.captured[i], ctx.captured[j];
      assert p in ctx.captured && q in ctx.captured && Owned(ctx, p) && Owned(ctx, q);
    }
    forall p | p in pairs
      ensures p !in Pairs(w.rows)
    {
      var i :| 0 <= i < |pairs| && pairs[i] == p;
      assert ctx.captured[i] in ctx.captured && Owned(ctx, ctx.captured[i]);
      EventAt(w, p.0, p.1);
      PairsMember(w.rows, p);
    }
  }

  lemma DistinctTogether(present: seq<Pair>, added: seq<Pair>)
    requires Distinct(present) && Distinct(added) && forall p :: p in added ==> p !in present
    ensures Distinct(present + added)
  {
    var all := present + added;
    forall i, j | 0 <= i < j < |all|
      ensures all[i] != all[j]
    {
      if |present| <= j {
        assert all[j] == added[j - |present|];
        if i < |present| {
          assert all[i] in present;
        }
      }
    }
  }

  lemma UpToDateCommits<S(!new), E(!new)>(ks: Kinds<S, E>, w: World<S>, ctx: Ctx<S>)
    requires StoreCounted(ks, w) && CtxCounted(ks, w.rows, ctx) && UpToDate(w, ctx)
    ensures Commits(w, ctx)
  {
    UpToDateIsNew(ks, w, ctx);
    DistinctTogether(Pairs(w.rows), Pairs(ctx.captured));
    InsertableExact(Pairs(w.rows), Pairs(ctx.captured));
    DuePairsExact(ks, Pairs(w.rows));
    DuePairsExact(ks, Pairs(ctx.captured));
    DistinctTogether(SnapshotPairs(w.snapshots), SnapshotPairs(ctx.snapshots));
    InsertableExact(SnapshotPairs(w.snapshots), SnapshotPairs(ctx.snapshots));
  }

  /** A context commits exactly when it is up to date: nothing else makes a commit fail, snapshots included. */
  lemma {:induction false} CommitsExactly<S(!new), E(!new)>(ks: Kinds<S, E>, moves: seq<Move<E>>, c: int)
    requires Run(ks, moves).Some? && c in Run(ks, moves).value.contexts
    ensures var w := Run(ks, moves).value;
            Commits(w, w.contexts[c]) <==> UpToDate(w, w.contexts[c])
  {
    RunKeepsCounted(ks, moves);
    var w := Run(ks, moves).value;
    assert CtxCounted(ks, w.rows, w.contexts[c]);
    if Commits(w, w.contexts[c]) {
      CommitsUpToDate(ks, w, w.contexts[c]);
    }
    if UpToDate(w, w.contexts[c]) {
      UpToDateCommits(ks, w, w.contexts[c]);
    }
  }
}
