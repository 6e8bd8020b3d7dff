/** What every run of concurrent contexts guarantees of streams, snapshots and commits. */
module StreamTheorems {
  import opened Records
  import opened EventStreams
  import opened Aggregates
  import opened Streams
  import opened StreamSequences

  // How many events the aggregate has.
  function Length<S>(w: World<S>, id: int): nat {
    |Above(Events(w.rows), id, 0)|
  }

  predicate HasEvent<S>(w: World<S>, id: int, sequence: int) {
    exists e :: e in Events(w.rows) && e.aggregateId == id && e.sequence == sequence
  }

  lemma EventAt<S(!new)>(w: World<S>, id: int, sequence: int)
    requires Consecutive(Pairs(w.rows))
    ensures HasEvent(w, id, sequence) <==> 1 <= sequence <= Length(w, id)
    ensures HasPair(w.rows, id, sequence) <==> 1 <= sequence <= Length(w, id)
  {
    StreamCounts(w.rows, id);
    PairsMember(w.rows, (id, sequence));
    if HasEvent(w, id, sequence) {
      var e :| e in Events(w.rows) && e.aggregateId == id && e.sequence == sequence;
      var i :| 0 <= i < |w.rows| && Events(w.rows)[i] == e;
      assert Pairs(w.rows)[i] == (id, sequence);
    }
    if HasPair(w.rows, id, sequence) {
      var r :| r in w.rows && PairOf(r.event) == (id, sequence);
      var i :| 0 <= i < |w.rows| && w.rows[i] == r;
      assert Events(w.rows)[i] in Events(w.rows);
    }
  }

  /** In every reachable store each aggregate's committed sequences are exactly 1..n, each once and in commit order. */
  lemma {:induction false} StreamsAreGapFree<S(!new), E(!new)>(ks: Kinds<S, E>, moves: seq<Move<E>>, id: int)
    requires Run(ks, moves).Some?
    ensures var w := Run(ks, moves).value;
            && GapFree(Above(Events(w.rows), id, 0))
            && forall sequence :: HasEvent(w, id, sequence) <==> 1 <= sequence <= Length(w, id)
  {
    RunKeepsCounted(ks, moves);
    var w := Run(ks, moves).value;
    StreamCounts(w.rows, id);
    forall sequence
      ensures HasEvent(w, id, sequence) <==> 1 <= sequence <= Length(w, id)
    {
      EventAt(w, id, sequence);
    }
  }

  /** Of all contexts that loaded an aggregate at sequence n and applied an event to it, at most one commits. */
  lemma {:induction false} AtMostOneCommits<S(!new), E(!new)>(ks: Kinds<S, E>, moves: seq<Move<E>>, a: Win, b: Win)
    requires Run(ks, moves).Some?
    requires a in Run(ks, moves).value.wins && b in Run(ks, moves).value.wins
    requires a.id == b.id && a.base == b.base
    ensures a.ctx == b.ctx
  {
    RunKeepsCounted(ks, moves);
  }

  // ---------------- Snapshots ----------------

  predicate HasSnapshotAt<S>(w: World<S>, id: int, sequence: int) {
    exists s :: s in w.snapshots && s.aggregateId == id && s.sequence == sequence
  }

  lemma SnapshotAt<S(!new), E(!new)>(ks: Kinds<S, E>, w: World<S>, id: int, sequence: int)
    requires StoreCounted(ks, w)
    ensures HasSnapshotAt(w, id, sequence) <==> Due(ks(id), sequence) && 1 <= sequence <= Length(w, id)
  {
    EventAt(w, id, sequence);
    PairsMember(w.rows, (id, sequence));
    DuePairsExact(ks, Pairs(w.rows));
    if HasSnapshotAt(w, id, sequence) {
      var s :| s in w.snapshots && s.aggregateId == id && s.sequence == sequence;
      var i :| 0 <= i < |w.snapshots| && w.snapshots[i] == s;
      assert SnapshotPairs(w.snapshots)[i] == (id, sequence);
    }
    if (id, sequence) in SnapshotPairs(w.snapshots) {
      var i :| 0 <= i < |w.snapshots| && SnapshotPairs(w.snapshots)[i] == (id, sequence);
      assert w.snapshots[i] in w.snapshots;
    }
  }

  /** Snapshots sit exactly at the multiples of the frequency, up to the number of events. */
  lemma {:induction false} SnapshotSpacing<S(!new), E(!new)>(ks: Kinds<S, E>, moves: seq<Move<E>>, id: int,
                                                             sequence: int)
    requires Run(ks, moves).Some?
    ensures var w := Run(ks, moves).value;
            HasSnapshotAt(w, id, sequence)
            <==> 0 < ks(id).frequency && sequence % ks(id).frequency == 0 && 1 <= sequence <= Length(w, id)
  {
    RunKeepsCounted(ks, moves);
    SnapshotAt(ks, Run(ks, moves).value, id, sequence);
  }

  lemma SmallMultiple(f: int, k: int)
    requires 0 < f && -f < f * k < f
    ensures k == 0
  {
    assert 1 <= k ==> f * k == f + f * (k - 1) && 0 <= f * (k - 1);
    assert k <= -1 ==> f * k == -f + f * (k + 1) && f * (k + 1) <= 0;
  }

  lemma Remainder(q: int, d: int, f: int)
    requires 0 <= d < f
    ensures (f * q + d) % f == d
  {
    var x := f * q + d;
    assert x == f * (x / f) + x % f;
    assert f * (q - x / f) == f * q - f * (x / f);
    SmallMultiple(f, q - x / f);
  }

  // Above n - n % f and up to n there is no multiple of f, and n - n % f is one.
  lemma LastMultiple(n: int, f: int, s: int)
    requires 0 < f
    ensures (n - n % f) % f == 0
    ensures n - n % f < s <= n ==> s % f != 0
  {
    var q := n / f;
    assert n == f * q + n % f;
    Remainder(q, 0, f);
    if n - n % f < s <= n {
      Remainder(q, s - f * q, f);
    }
  }

  // The latest snapshot is the one at the last multiple of the frequency.
  lemma LatestSnapshot<S(!new), E(!new)>(ks: Kinds<S, E>, w: World<S>, id: int)
    requires StoreCounted(ks, w)
    ensures var f, n := ks(id).frequency, Length(w, id);
            SequenceOf(MostRecent(w.snapshots, id)) == if 0 < f then n - n % f else 0
  {
    var f, n := ks(id).frequency, Length(w, id);
    var snapshot := MostRecent(w.snapshots, id);
    var s := SequenceOf(snapshot);
    if snapshot.Some? {
      assert snapshot.value in w.snapshots;
      SnapshotAt(ks, w, id, s);
    }
    if 0 < f {
      LastMultiple(n, f, s);
      SnapshotAt(ks, w, id, n - n % f);
    }
  }

  lemma LoadedNow<S(!new), E(!new)>(ks: Kinds<S, E>, w: World<S>, id: int)
    requires StoreCounted(ks, w)
    ensures |LoadNow(w, id).events| == Length(w, id) - SequenceOf(MostRecent(w.snapshots, id))
    ensures LastSequence(LoadNow(w, id)) == Length(w, id)
  {
    var snapshot := MostRecent(w.snapshots, id);
    if snapshot.Some? {
      SnapshotCounted(ks, w, id);
    }
    LoadedSequence(w, id, snapshot);
    StreamCounts(w.rows, id);
  }

  /** A load reads exactly n mod frequency events after the snapshot, or all n when there are no snapshots. */
  lemma {:induction false} LoadReadsShortTail<S(!new), E(!new)>(ks: Kinds<S, E>, moves: seq<Move<E>>, id: int)
    requires Run(ks, moves).Some?
    ensures var w := Run(ks, moves).value;
            var f := ks(id).frequency;
            && |LoadNow(w, id).events| == (if 0 < f then Length(w, id) % f else Length(w, id))
            && LastSequence(LoadNow(w, id)) == Length(w, id)
  {
    RunKeepsCounted(ks, moves);
    LatestSnapshot(ks, Run(ks, moves).value, id);
    LoadedNow(ks, Run(ks, moves).value, id);
  }

  // ---------------- The latest snapshot is the last one ----------------

  // One aggregate's pairs come with rising sequences.
  predicate Rising(pairs: seq<Pair>) {
    forall i, j :: 0 <= i < j < |pairs| && pairs[i].0 == pairs[j].0 ==> pairs[i].1 < pairs[j].1
  }

  lemma {:induction false} ConsecutiveRises(pairs: seq<Pair>)
    requires Consecutive(pairs)
    ensures Rising(pairs)
  {
    if pairs != [] {
      var init, last := pairs[..|pairs| - 1], pairs[|pairs| - 1];
      ConsecutiveInit(pairs);
      ConsecutiveRises(init);
      NumbersCount(init, last.0);
      assert Preceded(pairs, |pairs| - 1);
      forall i | 0 <= i < |init| && init[i].0 == last.0
        ensures init[i].1 < last.1
      {
        assert (last.0, init[i].1) in init;
      }
    }
  }

  lemma {:induction false} DuePairsRise<S(!new), E(!new)>(ks: Kinds<S, E>, pairs: seq<Pair>)
    requires Rising(pairs)
    ensures Rising(DuePairs(ks, pairs))
  {
    if pairs != [] {
      var init, last := pairs[..|pairs| - 1], pairs[|pairs| - 1];
      DuePairsRise(ks, init);
      DuePairsExact(ks, init);
      var due := DuePairs(ks, init);
      forall i | 0 <= i < |due| && due[i].0 == last.0
        ensures due[i].1 < last.1
      {
        assert due[i] in init;
        var j :| 0 <= j < |init| && init[j] == due[i];
        assert pairs[j] == init[j];
      }
    }
  }

  lemma {:induction false} LastOfRising(snapshots: seq<Snapshot>, id: int)
    requires Rising(SnapshotPairs(snapshots))
    ensures LastCaptured(snapshots, id) == MostRecent(snapshots, id)
  {
    if snapshots != [] {
      var init := snapshots[..|snapshots| - 1];
      var pairs := SnapshotPairs(snapshots);
      assert forall i :: 0 <= i < |init| ==> SnapshotPairs(init)[i] == pairs[i];
      LastOfRising(init, id);
      var r := MostRecent(init, id);
      if r.Some? {
        var i :| 0 <= i < |init| && init[i] == r.value;
        assert pairs[i] == (id, r.value.sequence);
      }
    }
  }

  /** In every reachable store the snapshot saved last is the latest one: memory and SQL load from the same snapshot. */
  lemma {:induction false} LastCapturedIsMostRecent<S(!new), E(!new)>(ks: Kinds<S, E>, moves: seq<Move<E>>, id: int)
    requires Run(ks, moves).Some?
    ensures var w := Run(ks, moves).value; LastCaptured(w.snapshots, id) == MostRecent(w.snapshots, id)
  {
    RunKeepsCounted(ks, moves);
    var w := Run(ks, moves).value;
    ConsecutiveRises(Pairs(w.rows));
    DuePairsRise(ks, Pairs(w.rows));
    LastOfRising(w.snapshots, id);
  }
}
