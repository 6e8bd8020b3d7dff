/** What the runs of a subscription promise: exactly once and in order, and nothing left when the log rests. */
module SubscriptionTheorems {
  import opened Wrappers
  import opened Records
  import opened EventLog
  import opened TypeNames
  import opened NaturalKeys
  import opened EngineTables
  import opened Leases
  import opened Draining
  import opened MemoryEngine
  import opened SubscriptionRuns

  // ---------------- Rendered batches ----------------

  lemma RenderStays(log: seq<LogRow>, longer: seq<LogRow>, ids: seq<int>)
    requires log <= longer && InLog(log, ids)
    ensures Render(longer, ids) == Render(log, ids)
  {
  }

  lemma RenderConcat(log: seq<LogRow>, a: seq<int>, b: seq<int>)
    ensures Render(log, a + b) == Render(log, a) + Render(log, b)
  {
  }

  function RenderAll(log: seq<LogRow>, batches: seq<seq<int>>): (all: seq<seq<SerializedEvent>>)
    ensures |all| == |batches| && forall i :: 0 <= i < |all| ==> all[i] == Render(log, batches[i])
  {
    seq(|batches|, i requires 0 <= i < |batches| => Render(log, batches[i]))
  }

  lemma RenderAllOneMore(log: seq<LogRow>, batches: seq<seq<int>>, batch: seq<int>)
    ensures RenderAll(log, batches + [batch]) == RenderAll(log, batches) + [Render(log, batch)]
  {
  }

  lemma {:induction false} ConcatSplit(a: seq<seq<SerializedEvent>>, b: seq<seq<SerializedEvent>>)
    ensures Concat(a + b) == Concat(a) + Concat(b)
    decreases |b|
  {
    if b == [] {
      assert a + b == a;
    } else {
      var init := b[..|b| - 1];
      ConcatSplit(a, init);
      assert (a + b)[..|a + b| - 1] == a + init;
      AddedTwice(Concat(a), Concat(init), b[|b| - 1]);
    }
  }

  lemma AddedTwice<T>(a: seq<T>, b: seq<T>, c: seq<T>)
    ensures (a + b) + c == a + (b + c)
  {
  }

  lemma {:induction false} ConcatRendered(log: seq<LogRow>, batches: seq<seq<int>>)
    ensures Concat(RenderAll(log, batches)) == Render(log, Flatten(batches))
  {
    if batches != [] {
      var first, rest := [batches[0]], batches[1..];
      ConcatRendered(log, rest);
      assert RenderAll(log, batches) == RenderAll(log, first) + RenderAll(log, rest);
      ConcatSplit(RenderAll(log, first), RenderAll(log, rest));
      assert Concat(RenderAll(log, first)) == Render(log, batches[0]);
      RenderConcat(log, batches[0], Flatten(rest));
    }
  }

  // ---------------- Exactly once and in order, while the log grows ----------------

  // The part of (lo, hi] that the log has.
  function SelectUpTo(log: seq<LogRow>, f: Filter, lo: int, hi: int): seq<int> {
    Select(log, f, lo, Min(hi, |log|))
  }

  /**
   What a run has handed over: the selection of the log between the cursor it started from and the stored cursor,
   each event once and in order.
   */
  ghost predicate HandedOver(log: seq<LogRow>, f: Filter, from: int, cursor: int,
                             delivered: seq<seq<SerializedEvent>>) {
    && from <= cursor && (cursor <= |log| || cursor == from)
    && Concat(delivered) == Render(log, SelectUpTo(log, f, from, cursor))
  }

  lemma HandedOverGrows(log: seq<LogRow>, longer: seq<LogRow>, f: Filter, from: int, cursor: int,
                        delivered: seq<seq<SerializedEvent>>)
    requires log <= longer && HandedOver(log, f, from, cursor, delivered)
    ensures HandedOver(longer, f, from, cursor, delivered)
  {
    var hi := Min(cursor, |log|);
    SelectStable(log, longer, f, from, hi);
    SelectInLog(log, f, from, hi);
    RenderStays(log, longer, Select(log, f, from, hi));
  }

  lemma HandedOverExtends(log: seq<LogRow>, f: Filter, from: int, cursor: int, limit: int,
                          delivered: seq<seq<SerializedEvent>>)
    requires HandedOver(log, f, from, cursor, delivered) && 0 < limit && Fetch(log, f, cursor, limit) != []
    ensures var batch := Fetch(log, f, cursor, limit);
            HandedOver(log, f, from, Last(batch), delivered + [Render(log, batch)])
  {
    var batch := Fetch(log, f, cursor, limit);
    FetchCovers(log, f, cursor, limit);
    SelectSplit(log, f, from, cursor, Last(batch));
    RenderConcat(log, Select(log, f, from, cursor), batch);
    assert (delivered + [Render(log, batch)])[..|delivered|] == delivered;
  }

  lemma LogGrewBefore(log0: seq<LogRow>, seen: seq<Seen>)
    requires LogGrows(log0, seen) && seen != []
    ensures var init := seen[..|seen| - 1];
            && LogGrows(log0, init)
            && LogBefore(log0, init, |init|) == LogBefore(log0, seen, |init|) <= seen[|init|].log
  {
    var init := seen[..|seen| - 1];
    assert LogGrowsAt(log0, seen, |init|);
    forall n | 0 <= n < |init|
      ensures LogGrowsAt(log0, init, n)
    {
      assert LogGrowsAt(log0, seen, n);
    }
  }

  // The loop changes the cursor and the lease of its row, and never the owner.
  predicate SameDefinition(row: SubscriptionRow, row': SubscriptionRow) {
    row' == row.(lastEventId := row'.lastEventId, lease := row'.lease) && row'.lease.owner == row.lease.owner
  }

  lemma MovedHandsOver(log: seq<LogRow>, s: Seen, from: int, p: Progress, f: Filter, opts: Options, q: Progress)
    requires log <= s.log && HandedOver(log, f, from, p.row.lastEventId, p.delivered) && q == Moved(p, s, f, opts)
    ensures HandedOver(s.log, f, from, q.row.lastEventId, q.delivered)
  {
    HandedOverGrows(log, s.log, f, from, p.row.lastEventId, p.delivered);
    var batch := Fetch(s.log, f, p.row.lastEventId, BatchSize(opts));
    if q.delivered != p.delivered || q.row.lastEventId != p.row.lastEventId {
      assert batch != [] && q.row.lastEventId == Last(batch) && q.delivered == p.delivered + [Render(s.log, batch)];
      HandedOverExtends(s.log, f, from, p.row.lastEventId, BatchSize(opts), p.delivered);
    }
  }

  /**
   However the log grows between the turns and however the loop ends, the batches handed over are, put together, the
   matching events between the first cursor and the stored one, each once and in log order.
   */
  lemma {:induction false} LoopHandsOver(log0: seq<LogRow>, seen: seq<Seen>, row: SubscriptionRow, f: Filter,
                                         opts: Options)
    requires LogGrows(log0, seen)
    ensures var p := Play(Progress(row, [], None), seen, f, opts);
            HandedOver(LogBefore(log0, seen, |seen|), f, row.lastEventId, p.row.lastEventId, p.delivered)
    decreases |seen|
  {
    if seen != [] {
      var init, start := seen[..|seen| - 1], Progress(row, [], None);
      LogGrewBefore(log0, seen);
      LoopHandsOver(log0, init, row, f, opts);
      var p, q := Play(start, init, f, opts), Play(start, seen, f, opts);
      assert q == Moved(p, seen[|init|], f, opts);
      MovedHandsOver(LogBefore(log0, init, |init|), seen[|init|], row.lastEventId, p, f, opts, q);
    }
  }

  /** The loop changes the cursor and the lease of its row and nothing else, and never the owner. */
  lemma {:induction false} LoopKeepsDefinition(seen: seq<Seen>, p: Progress, f: Filter, opts: Options)
    ensures SameDefinition(p.row, Play(p, seen, f, opts).row)
    decreases |seen|
  {
    if seen != [] {
      LoopKeepsDefinition(seen[..|seen| - 1], p, f, opts);
    }
  }

  /** The whole run: how it can be refused, and what it hands over when it is not. */
  lemma RunHandsOver(log0: seq<LogRow>, seen: seq<Seen>, defined: SubscriptionRow, f: Filter, opts: Options, now: int)
    requires LogGrows(log0, seen)
    ensures var a := Answer(log0, seen, defined, f, opts, now);
            && (a.stop == Some(AlreadyOwned) <==> !MayClaim(defined.lease, now))
            && (a.stop == Some(AlreadyOwned) ==> a.row == defined && a.delivered == [])
            && (a.stop == Some(UnknownStart) <==>
                  MayClaim(defined.lease, now) && defined.lastEventId == 0 && PlaceCursor(defined.start, log0).Reject?)
            && (a.stop == Some(UnknownStart) ==> a.row.lastEventId == defined.lastEventId && a.delivered == [])
            && (a.stop != Some(AlreadyOwned) ==> a.row.lease.owner == None)
            && (a.stop !in {Some(AlreadyOwned), Some(UnknownStart)} ==>
                  HandedOver(LogBefore(log0, seen, |seen|), f, Placed(defined, log0).lastEventId, a.row.lastEventId,
                             a.delivered))
  {
    if Refusal(defined, log0, now).None? {
      LoopHandsOver(log0, seen, Begun(defined, log0, opts, now).row, f, opts);
      LoopKeepsDefinition(seen, Begun(defined, log0, opts, now), f, opts);
      LoopStops(Begun(defined, log0, opts, now), seen, f, opts);
    }
  }

  // A loop ends on its own in two ways only, and while it goes on the subscription is active.
  lemma {:induction false} LoopStops(p: Progress, seen: seq<Seen>, f: Filter, opts: Options)
    requires p.stop.None? && p.row.lease.active
    ensures var q := Play(p, seen, f, opts);
            q.stop in {None, Some(Inactive), Some(HandlerFailed)} && (q.stop.None? ==> q.row.lease.active)
    decreases |seen|
  {
    if seen != [] {
      LoopStops(p, seen[..|seen| - 1], f, opts);
    }
  }

  // ---------------- The rounds decide a run ----------------

  lemma {:induction false} SeenPrefix(t: LogTables, rounds: seq<Round>, k: nat)
    requires k <= |rounds|
    ensures SeenOf(t, rounds)[..k] == SeenOf(t, rounds[..k])
  {
    if k < |rounds| {
      var init := rounds[..|rounds| - 1];
      SeenPrefix(t, init, k);
      assert init[..k] == rounds[..k];
      assert SeenOf(t, rounds)[..k] == SeenOf(t, init)[..k];
    } else {
      assert rounds[..k] == rounds;
    }
  }

  /** The logs that the turns of a run saw grew, from sound tables and while no key changes, to the log it left. */
  lemma LogsGrew(rounds: seq<Round>, t0: LogTables, t: LogTables, seen: seq<Seen>)
    requires Sound(t0) && CreatesOnly(rounds) && GoesThrough(rounds, t0, t, seen)
    ensures Sound(t) && LogGrows(LogOf(t0), seen) && LogBefore(LogOf(t0), seen, |seen|) == LogOf(t)
  {
    SeenLogsGrow(t0, rounds[..|seen|]);
  }

  lemma {:induction false} StoppedStays(p: Progress, seen: seq<Seen>, f: Filter, opts: Options)
    requires p.stop.Some?
    ensures Play(p, seen, f, opts) == p
    decreases |seen|
  {
    if seen != [] {
      StoppedStays(p, seen[..|seen| - 1], f, opts);
    }
  }

  /**
   However few of its rounds a run went through, it gives what it would give if it went on: the rounds and the tables
   that it starts from decide what it hands over, how it ends and the row that it leaves.
   */
  lemma RoundsDecide(rounds: seq<Round>, t0: LogTables, t: LogTables, seen: seq<Seen>, defined: SubscriptionRow,
                     f: Filter, opts: Options, now: int)
    requires GoesThrough(rounds, t0, t, seen)
    requires Answer(LogOf(t0), seen, defined, f, opts, now).stop.None? ==> |seen| == |rounds|
    ensures Answer(LogOf(t0), SeenOf(t0, rounds), defined, f, opts, now)
         == Answer(LogOf(t0), seen, defined, f, opts, now)
  {
    var all, begun := SeenOf(t0, rounds), Begun(defined, LogOf(t0), opts, now);
    SeenPrefix(t0, rounds, |seen|);
    assert all == seen + all[|seen|..];
    PlaySplit(begun, seen, all[|seen|..], f, opts);
    if Play(begun, seen, f, opts).stop.Some? {
      StoppedStays(Play(begun, seen, f, opts), all[|seen|..], f, opts);
    }
  }

  lemma {:induction false} StoppedStaysLocally(p: LocalProgress, seen: seq<Seen>, g: Filter, names: Option<set<string>>,
                                               limit: int)
    requires 0 < limit && p.stop.Some?
    ensures PlayLocally(p, seen, g, names, limit) == p
    decreases |seen|
  {
    if seen != [] {
      StoppedStaysLocally(p, seen[..|seen| - 1], g, names, limit);
    }
  }

  lemma NothingAfterStop(p: LocalProgress, seen: seq<Seen>, more: seq<Seen>, g: Filter, names: Option<set<string>>,
                         limit: int)
    requires 0 < limit && (PlayLocally(p, seen, g, names, limit).stop.None? ==> more == [])
    ensures PlayLocally(p, seen + more, g, names, limit) == PlayLocally(p, seen, g, names, limit)
  {
    PlayLocallySplit(p, seen, more, g, names, limit);
    if more != [] {
      StoppedStaysLocally(PlayLocally(p, seen, g, names, limit), more, g, names, limit);
    }
  }

  /** So they do for the ephemeral run. */
  lemma RoundsDecideLocally(rounds: seq<Round>, t0: LogTables, t: LogTables, seen: seq<Seen>, g: Filter,
                            names: Option<set<string>>, start: Start, opts: Options)
    requires GoesThrough(rounds, t0, t, seen)
    requires LocalAnswer(LogOf(t0), seen, g, names, start, opts).stop.None? ==> |seen| == |rounds|
    ensures LocalAnswer(LogOf(t0), SeenOf(t0, rounds), g, names, start, opts)
         == LocalAnswer(LogOf(t0), seen, g, names, start, opts)
  {
    var all, from := SeenOf(t0, rounds), EphemeralCursor(start, LogOf(t0));
    SeenPrefix(t0, rounds, |seen|);
    assert all == seen + all[|seen|..];
    if from.Some? {
      NothingAfterStop(LocalProgress(from.value, [], None), seen, all[|seen|..], g, names, BatchSize(opts));
    }
  }

  // ---------------- Progress ----------------

  predicate Quiet(round: Round) {
    Uneventful(round) && round.handlerOk
  }

  predicate QuietFrom(seen: seq<Seen>, n: nat) {
    forall i :: n <= i < |seen| ==> Quiet(seen[i].round)
  }

  predicate StaysActiveFrom(seen: seq<Seen>, n: nat) {
    forall i :: n <= i < |seen| ==> !seen[i].round.deactivate
  }

  // Every turn finds this one log, and its handler answers without an error.
  predicate AtRest(log: seq<LogRow>, seen: seq<Seen>) {
    forall i :: 0 <= i < |seen| ==> seen[i].log == log && seen[i].round.handlerOk
  }

  lemma {:induction false} QuietIsAtRest(log0: seq<LogRow>, seen: seq<Seen>, n: nat)
    requires LogGrows(log0, seen) && n <= |seen| && QuietFrom(seen, n)
    ensures AtRest(LogBefore(log0, seen, n), seen[n..])
    ensures LogBefore(log0, seen, |seen|) == LogBefore(log0, seen, n)
    decreases |seen|
  {
    if n < |seen| {
      var init := seen[..|seen| - 1];
      LogGrewBefore(log0, seen);
      QuietIsAtRest(log0, init, n);
      assert LogGrowsAt(log0, seen, |init|) && Quiet(seen[|init|].round);
      assert seen[n..] == init[n..] + [seen[|init|]];
    }
  }

  lemma {:induction false} PlaySplit(p: Progress, a: seq<Seen>, b: seq<Seen>, f: Filter, opts: Options)
    ensures Play(p, a + b, f, opts) == Play(Play(p, a, f, opts), b, f, opts)
    decreases |b|
  {
    if b == [] {
      assert a + b == a;
    } else {
      var init := b[..|b| - 1];
      PlaySplit(p, a, init, f, opts);
      assert (a + b)[..|a + b| - 1] == a + init;
    }
  }

  // Of the batches that are left, the first k have been handed over.
  ghost predicate Drained(log: seq<LogRow>, f: Filter, limit: int, batches: seq<seq<int>>, k: nat, p: Progress,
                          q: Progress)
    requires 0 < limit
  {
    && k <= |batches|
    && q.stop.None? && q.row.lease.active
    && q.delivered == p.delivered + RenderAll(log, batches[..k])
    && Drain(log, f, q.row.lastEventId, limit) == batches[k..]
  }

  lemma DrainedOneMore(s: Seen, f: Filter, opts: Options, batches: seq<seq<int>>, k: nat, p: Progress, q: Progress)
    requires Drained(s.log, f, BatchSize(opts), batches, k, p, q) && s.round.handlerOk && !s.round.deactivate
    ensures Drained(s.log, f, BatchSize(opts), batches, Min(k + 1, |batches|), p, Moved(q, s, f, opts))
  {
    var batch := Fetch(s.log, f, q.row.lastEventId, BatchSize(opts));
    FetchCovers(s.log, f, q.row.lastEventId, BatchSize(opts));
    if k < |batches| {
      assert batches[k..][0] == batches[k] && batches[k..][1..] == batches[k + 1..];
      assert batch == batches[k];
      assert batches[..k + 1] == batches[..k] + [batch];
      RenderAllOneMore(s.log, batches[..k], batch);
    } else {
      assert batches[k..] == [];
    }
  }

  /**
   On a log at rest each turn hands over the next of the batches that are left: after n turns the first n of them, or
   all. What is left afterwards is the rest.
   */
  lemma {:induction false} LoopDrains(log: seq<LogRow>, seen: seq<Seen>, p: Progress, f: Filter, opts: Options)
    requires AtRest(log, seen) && StaysActiveFrom(seen, 0)
    requires p.stop.None? && p.row.lease.active
    ensures var batches := Drain(log, f, p.row.lastEventId, BatchSize(opts));
            Drained(log, f, BatchSize(opts), batches, Min(|seen|, |batches|), p, Play(p, seen, f, opts))
    decreases |seen|
  {
    if seen != [] {
      var init := seen[..|seen| - 1];
      LoopDrains(log, init, p, f, opts);
      var batches := Drain(log, f, p.row.lastEventId, BatchSize(opts));
      DrainedOneMore(seen[|init|], f, opts, batches, Min(|init|, |batches|), p, Play(p, init, f, opts));
    }
  }

  /**
   A run that is not refused and not stopped in its first n rounds, and finds the log at rest from then on, hands over
   the first batches of what was left, one a round, and with as many rounds as there are batches, everything.
   */
  lemma RunCatchesUp(log0: seq<LogRow>, seen: seq<Seen>, defined: SubscriptionRow, f: Filter, opts: Options, now: int,
                     n: nat)
    requires LogGrows(log0, seen) && n <= |seen| && QuietFrom(seen, n) && StaysActiveFrom(seen, n)
    requires Answer(log0, seen[..n], defined, f, opts, now).stop.None?
    ensures var log := LogBefore(log0, seen, n);
            var p := Answer(log0, seen[..n], defined, f, opts, now);
            var a := Answer(log0, seen, defined, f, opts, now);
            var batches := Drain(log, f, p.row.lastEventId, BatchSize(opts));
            var k := Min(|seen| - n, |batches|);
            && a.stop.None?
            && a.delivered == p.delivered + RenderAll(log, batches[..k])
            && (|batches| <= |seen| - n ==> Select(log, f, a.row.lastEventId, |log|) == [])
  {
    var begun, log := Begun(defined, log0, opts, now), LogBefore(log0, seen, n);
    var p, q := Play(begun, seen[..n], f, opts), Play(begun, seen, f, opts);
    assert seen == seen[..n] + seen[n..];
    PlaySplit(begun, seen[..n], seen[n..], f, opts);
    LoopStops(begun, seen[..n], f, opts);
    QuietIsAtRest(log0, seen, n);
    LoopDrains(log, seen[n..], p, f, opts);
    FetchCovers(log, f, q.row.lastEventId, BatchSize(opts));
  }

  // ---------------- Keeping up with a growing log ----------------

  // How many matching events the runner has still to hand over.
  function Backlog(log: seq<LogRow>, f: Filter, cursor: int): nat {
    |Select(log, f, cursor, |log|)|
  }

  function Arrivals(log: seq<LogRow>, longer: seq<LogRow>, f: Filter): nat
    requires log <= longer
  {
    |Select(longer, f, |log|, |longer|)|
  }

  predicate Working(p: Progress, round: Round) {
    p.stop.None? && p.row.lease.active && round.handlerOk && !round.deactivate
  }

  lemma BacklogOfFetch(log: seq<LogRow>, longer: seq<LogRow>, f: Filter, cursor: int, limit: int)
    requires log <= longer && cursor <= |log| && 0 < limit
    ensures var batch := Fetch(longer, f, cursor, limit);
            var next := if batch == [] then cursor else Last(batch);
            && next <= |longer|
            && Backlog(longer, f, next) == Max(Backlog(log, f, cursor) + Arrivals(log, longer, f) - limit, 0)
  {
    SelectSplit(longer, f, cursor, |log|, |longer|);
    SelectStable(log, longer, f, cursor, |log|);
    FetchCovers(longer, f, cursor, limit);
    var batch := Fetch(longer, f, cursor, limit);
    if batch != [] {
      SelectSplit(longer, f, cursor, Last(batch), |longer|);
    }
  }

  /**
   Each turn of a working runner takes a whole batch off what is left and what came in, or all of it: it never waits
   while there is something to hand over.
   */
  lemma TurnWorksOff(log: seq<LogRow>, s: Seen, p: Progress, f: Filter, opts: Options)
    requires log <= s.log && p.row.lastEventId <= |log| && Working(p, s.round)
    ensures var q := Moved(p, s, f, opts);
            && q.stop.None? && q.row.lease.active && q.row.lastEventId <= |s.log|
            && Backlog(s.log, f, q.row.lastEventId)
            == Max(Backlog(log, f, p.row.lastEventId) + Arrivals(log, s.log, f) - BatchSize(opts), 0)
  {
    BacklogOfFetch(log, s.log, f, p.row.lastEventId, BatchSize(opts));
  }

  predicate AtMostABatch(log0: seq<LogRow>, seen: seq<Seen>, f: Filter, limit: int, n: nat)
    requires n < |seen|
  {
    LogGrowsAt(log0, seen, n) && Arrivals(LogBefore(log0, seen, n), seen[n].log, f) <= limit
  }

  /** A runner whose log never gets more than a batch of matching events a round never falls behind. */
  lemma {:induction false} LoopKeepsUp(log0: seq<LogRow>, seen: seq<Seen>, row: SubscriptionRow, f: Filter,
                                       opts: Options)
    requires LogGrows(log0, seen) && row.lease.active && row.lastEventId <= |log0|
    requires StaysActiveFrom(seen, 0) && forall n :: 0 <= n < |seen| ==> seen[n].round.handlerOk
    requires forall n :: 0 <= n < |seen| ==> AtMostABatch(log0, seen, f, BatchSize(opts), n)
    ensures var p := Play(Progress(row, [], None), seen, f, opts);
            && p.stop.None? && p.row.lease.active && p.row.lastEventId <= |LogBefore(log0, seen, |seen|)|
            && Backlog(LogBefore(log0, seen, |seen|), f, p.row.lastEventId) <= Backlog(log0, f, row.lastEventId)
    decreases |seen|
  {
    if seen != [] {
      var init := seen[..|seen| - 1];
      LogGrewBefore(log0, seen);
      forall n | 0 <= n < |init|
        ensures AtMostABatch(log0, init, f, BatchSize(opts), n)
      {
        assert AtMostABatch(log0, seen, f, BatchSize(opts), n);
      }
      LoopKeepsUp(log0, init, row, f, opts);
      assert AtMostABatch(log0, seen, f, BatchSize(opts), |init|);
      TurnWorksOff(LogBefore(log0, init, |init|), seen[|init|], Play(Progress(row, [], None), init, f, opts), f, opts);
    }
  }

  // ---------------- The ephemeral run ----------------

  // What an ephemeral run has handed over: the wanted part of the selection up to its local cursor.
  ghost predicate KeptOver(log: seq<LogRow>, g: Filter, names: Option<set<string>>, from: int, cursor: int,
                           delivered: seq<seq<SerializedEvent>>) {
    var ids := SelectUpTo(log, g, from, cursor);
    && from <= cursor && (cursor <= |log| || cursor == from) && InLog(log, ids)
    && Concat(delivered) == Render(log, KeepNames(log, names, ids))
    && forall i :: 0 <= i < |delivered| ==> delivered[i] != []
  }

  lemma {:induction false} KeepNamesStays(log: seq<LogRow>, longer: seq<LogRow>, names: Option<set<string>>,
                                          ids: seq<int>)
    requires log <= longer && InLog(log, ids)
    ensures InLog(longer, ids) && InLog(log, KeepNames(log, names, ids))
    ensures KeepNames(longer, names, ids) == KeepNames(log, names, ids)
  {
    if ids != [] {
      KeepNamesStays(log, longer, names, ids[..|ids| - 1]);
    }
  }

  lemma KeptOverGrows(log: seq<LogRow>, longer: seq<LogRow>, g: Filter, names: Option<set<string>>, from: int,
                      cursor: int, delivered: seq<seq<SerializedEvent>>)
    requires log <= longer && KeptOver(log, g, names, from, cursor, delivered)
    ensures KeptOver(longer, g, names, from, cursor, delivered)
  {
    var hi := Min(cursor, |log|);
    var ids := Select(log, g, from, hi);
    SelectStable(log, longer, g, from, hi);
    KeepNamesStays(log, longer, names, ids);
    RenderStays(log, longer, KeepNames(log, names, ids));
  }

  lemma KeptOverExtends(log: seq<LogRow>, g: Filter, names: Option<set<string>>, from: int, cursor: int, limit: int,
                        delivered: seq<seq<SerializedEvent>>)
    requires KeptOver(log, g, names, from, cursor, delivered) && 0 < limit && FetchInLog(log, g, cursor, limit) != []
    ensures var batch := FetchInLog(log, g, cursor, limit);
            var deliver := Render(log, KeepNames(log, names, batch));
            KeptOver(log, g, names, from, Last(batch), if deliver == [] then delivered else delivered + [deliver])
  {
    var batch := FetchInLog(log, g, cursor, limit);
    var deliver := Render(log, KeepNames(log, names, batch));
    FetchCovers(log, g, cursor, limit);
    SelectSplit(log, g, from, cursor, Last(batch));
    var ids := Select(log, g, from, cursor);
    KeepNamesConcat(log, names, ids, batch);
    RenderConcat(log, KeepNames(log, names, ids), KeepNames(log, names, batch));
    assert (delivered + [deliver])[..|delivered|] == delivered;
  }

  lemma MovedLocallyHandsOver(log: seq<LogRow>, s: Seen, g: Filter, names: Option<set<string>>, from: int, limit: int,
                              p: LocalProgress, q: LocalProgress)
    requires 0 < limit && log <= s.log && KeptOver(log, g, names, from, p.cursor, p.delivered)
    requires q == MovedLocally(p, s, g, names, limit)
    ensures KeptOver(s.log, g, names, from, q.cursor, q.delivered)
  {
    KeptOverGrows(log, s.log, g, names, from, p.cursor, p.delivered);
    if FetchInLog(s.log, g, p.cursor, limit) != [] {
      KeptOverExtends(s.log, g, names, from, p.cursor, limit, p.delivered);
    }
  }

  lemma KeptNothing(log: seq<LogRow>, g: Filter, names: Option<set<string>>, from: int)
    ensures KeptOver(log, g, names, from, from, [])
  {
  }

  /** The local loop too hands over, exactly once and in order, the wanted part of the log up to its cursor. */
  lemma {:induction false} LocalLoopHandsOver(log0: seq<LogRow>, seen: seq<Seen>, g: Filter, names: Option<set<string>>,
                                              from: int, limit: int)
    requires LogGrows(log0, seen) && 0 < limit
    ensures var p := PlayLocally(LocalProgress(from, [], None), seen, g, names, limit);
            KeptOver(LogBefore(log0, seen, |seen|), g, names, from, p.cursor, p.delivered)
    decreases |seen|
  {
    if seen == [] {
      KeptNothing(log0, g, names, from);
    } else {
      var init, start := seen[..|seen| - 1], LocalProgress(from, [], None);
      LogGrewBefore(log0, seen);
      LocalLoopHandsOver(log0, init, g, names, from, limit);
      var p, q := PlayLocally(start, init, g, names, limit), PlayLocally(start, seen, g, names, limit);
      assert q == MovedLocally(p, seen[|init|], g, names, limit);
      MovedLocallyHandsOver(LogBefore(log0, init, |init|), seen[|init|], g, names, from, limit, p, q);
    }
  }

  lemma {:induction false} LocalLoopStops(p: LocalProgress, seen: seq<Seen>, g: Filter, names: Option<set<string>>,
                                          limit: int)
    requires 0 < limit && p.stop.None?
    ensures PlayLocally(p, seen, g, names, limit).stop in {None, Some(HandlerFailed)}
    decreases |seen|
  {
    if seen != [] {
      LocalLoopStops(p, seen[..|seen| - 1], g, names, limit);
    }
  }

  /** The whole ephemeral run: it refuses exactly the unknown start kinds, and otherwise hands over as its loop does. */
  lemma LocalRunHandsOver(log0: seq<LogRow>, seen: seq<Seen>, g: Filter, names: Option<set<string>>, start: Start,
                          opts: Options)
    requires LogGrows(log0, seen)
    ensures var a := LocalAnswer(log0, seen, g, names, start, opts);
            && (a.stop == Some(UnknownStart) <==> EphemeralCursor(start, log0).None?)
            && (a.stop == Some(UnknownStart) ==> a.delivered == [])
            && (a.stop != Some(UnknownStart) ==>
                  && a.stop in {None, Some(HandlerFailed)}
                  && KeptOver(LogBefore(log0, seen, |seen|), g, names, EphemeralCursor(start, log0).value, a.cursor,
                              a.delivered))
  {
    var from := EphemeralCursor(start, log0);
    if from.Some? {
      LocalLoopHandsOver(log0, seen, g, names, from.value, BatchSize(opts));
      LocalLoopStops(LocalProgress(from.value, [], None), seen, g, names, BatchSize(opts));
    }
  }

  predicate AllInLog(log: seq<LogRow>, batches: seq<seq<int>>) {
    forall i :: 0 <= i < |batches| ==> InLog(log, batches[i])
  }

  // The batches with what the names keep of them; those with nothing to keep are dropped.
  function KeepBatches(log: seq<LogRow>, names: Option<set<string>>, batches: seq<seq<int>>): seq<seq<int>>
    requires AllInLog(log, batches)
  {
    if batches == [] then []
    else
      var deliver := KeepNames(log, names, batches[|batches| - 1]);
      KeepBatches(log, names, batches[..|batches| - 1]) + (if deliver == [] then [] else [deliver])
  }

  lemma {:induction false} KeepBatchesSplit(log: seq<LogRow>, names: Option<set<string>>, a: seq<seq<int>>,
                                            b: seq<seq<int>>)
    requires AllInLog(log, a) && AllInLog(log, b)
    ensures AllInLog(log, a + b)
    ensures KeepBatches(log, names, a + b) == KeepBatches(log, names, a) + KeepBatches(log, names, b)
    decreases |b|
  {
    if b == [] {
      assert a + b == a;
    } else {
      var init := b[..|b| - 1];
      assert (a + b)[..|a + b| - 1] == a + init;
      KeepBatchesSplit(log, names, a, init);
    }
  }

  lemma KeepOneBatch(log: seq<LogRow>, names: Option<set<string>>, batch: seq<int>)
    requires InLog(log, batch)
    ensures var deliver := KeepNames(log, names, batch);
            KeepBatches(log, names, [batch]) == if deliver == [] then [] else [deliver]
  {
    assert [batch][..0] == [];
  }

  lemma {:induction false} DrainInLog(log: seq<LogRow>, g: Filter, cursor: int, limit: int)
    requires 0 < limit
    ensures AllInLog(log, Drain(log, g, cursor, limit))
    decreases Left(log, cursor)
  {
    FetchCovers(log, g, cursor, limit);
    var batch := FetchInLog(log, g, cursor, limit);
    if batch != [] {
      DrainInLog(log, g, Last(batch), limit);
    }
  }

  lemma {:induction false} EphemeralDrainKeeps(log: seq<LogRow>, g: Filter, names: Option<set<string>>, cursor: int,
                                               limit: int)
    requires 0 < limit
    ensures AllInLog(log, Drain(log, g, cursor, limit))
    ensures EphemeralDrain(log, g, names, cursor, limit) == KeepBatches(log, names, Drain(log, g, cursor, limit))
    decreases Left(log, cursor)
  {
    DrainInLog(log, g, cursor, limit);
    FetchCovers(log, g, cursor, limit);
    var batch := FetchInLog(log, g, cursor, limit);
    if batch != [] {
      EphemeralDrainKeeps(log, g, names, Last(batch), limit);
      KeepOneBatch(log, names, batch);
      KeepBatchesSplit(log, names, [batch], Drain(log, g, Last(batch), limit));
    }
  }

  // Of the batches that are left, the first k have been read, and what the names keep of them handed over.
  ghost predicate DrainedLocally(log: seq<LogRow>, g: Filter, names: Option<set<string>>, limit: int,
                                 batches: seq<seq<int>>, k: nat, p: LocalProgress, q: LocalProgress)
    requires 0 < limit
  {
    && k <= |batches| && AllInLog(log, batches) && AllInLog(log, batches[..k])
    && q.stop.None?
    && q.delivered == p.delivered + RenderAll(log, KeepBatches(log, names, batches[..k]))
    && Drain(log, g, q.cursor, limit) == batches[k..]
  }

  lemma DrainedLocallyOneMore(s: Seen, g: Filter, names: Option<set<string>>, limit: int, batches: seq<seq<int>>,
                              k: nat, p: LocalProgress, q: LocalProgress, q': LocalProgress)
    requires 0 < limit && DrainedLocally(s.log, g, names, limit, batches, k, p, q) && s.round.handlerOk
    requires q' == MovedLocally(q, s, g, names, limit)
    ensures DrainedLocally(s.log, g, names, limit, batches, Min(k + 1, |batches|), p, q')
  {
    var batch := FetchInLog(s.log, g, q.cursor, limit);
    if k < |batches| {
      assert batches[k..][0] == batches[k] && batches[k..][1..] == batches[k + 1..];
      assert batch == batches[k];
      var deliver := KeepNames(s.log, names, batch);
      assert batches[..k + 1][..k] == batches[..k];
      RenderAllOneMore(s.log, KeepBatches(s.log, names, batches[..k]), deliver);
    } else {
      assert batches[k..] == [];
    }
  }

  lemma {:induction false} PlayLocallySplit(p: LocalProgress, a: seq<Seen>, b: seq<Seen>, g: Filter,
                                            names: Option<set<string>>, limit: int)
    requires 0 < limit
    ensures PlayLocally(p, a + b, g, names, limit)
            == PlayLocally(PlayLocally(p, a, g, names, limit), b, g, names, limit)
    decreases |b|
  {
    if b == [] {
      assert a + b == a;
    } else {
      var init := b[..|b| - 1];
      PlayLocallySplit(p, a, init, g, names, limit);
      assert (a + b)[..|a + b| - 1] == a + init;
    }
  }

  /** On a log at rest each turn of the local loop reads the next batch that is left. */
  lemma {:induction false} LocalLoopDrains(log: seq<LogRow>, seen: seq<Seen>, p: LocalProgress, g: Filter,
                                           names: Option<set<string>>, limit: int)
    requires AtRest(log, seen) && 0 < limit && p.stop.None?
    ensures var batches := Drain(log, g, p.cursor, limit);
            DrainedLocally(log, g, names, limit, batches, Min(|seen|, |batches|), p,
                           PlayLocally(p, seen, g, names, limit))
    decreases |seen|
  {
    DrainInLog(log, g, p.cursor, limit);
    if seen != [] {
      var init := seen[..|seen| - 1];
      LocalLoopDrains(log, init, p, g, names, limit);
      var batches := Drain(log, g, p.cursor, limit);
      DrainedLocallyOneMore(seen[|init|], g, names, limit, batches, Min(|init|, |batches|), p,
                            PlayLocally(p, init, g, names, limit), PlayLocally(p, seen, g, names, limit));
    }
  }

  lemma RenderAllConcat(log: seq<LogRow>, a: seq<seq<int>>, b: seq<seq<int>>)
    ensures RenderAll(log, a + b) == RenderAll(log, a) + RenderAll(log, b)
  {
  }

  lemma DrainedIsPrefix(log: seq<LogRow>, g: Filter, names: Option<set<string>>, limit: int, k: nat, p: LocalProgress,
                        q: LocalProgress)
    requires 0 < limit && DrainedLocally(log, g, names, limit, Drain(log, g, p.cursor, limit), k, p, q)
    ensures var all := p.delivered + RenderAll(log, EphemeralDrain(log, g, names, p.cursor, limit));
            && p.delivered <= q.delivered <= all
            && (k == |Drain(log, g, p.cursor, limit)| ==> q.delivered == all && Select(log, g, q.cursor, |log|) == [])
  {
    var batches := Drain(log, g, p.cursor, limit);
    var read, left := batches[..k], batches[k..];
    EphemeralDrainKeeps(log, g, names, p.cursor, limit);
    assert batches == read + left;
    KeepBatchesSplit(log, names, read, left);
    RenderAllConcat(log, KeepBatches(log, names, read), KeepBatches(log, names, left));
    FetchCovers(log, g, q.cursor, limit);
  }

  /**
   From a log at rest on, the ephemeral run hands over the first batches of its drain, in order, skipping those with
   nothing to hand over, and after as many rounds as the query has batches it has handed over the whole drain.
   */
  lemma LocalRunCatchesUp(log0: seq<LogRow>, seen: seq<Seen>, p0: LocalProgress, g: Filter, names: Option<set<string>>,
                          limit: int, n: nat)
    requires LogGrows(log0, seen) && 0 < limit && n <= |seen| && QuietFrom(seen, n)
    requires PlayLocally(p0, seen[..n], g, names, limit).stop.None?
    ensures var log := LogBefore(log0, seen, n);
            var p := PlayLocally(p0, seen[..n], g, names, limit);
            var q := PlayLocally(p0, seen, g, names, limit);
            var drain := EphemeralDrain(log, g, names, p.cursor, limit);
            && q.stop.None? && p.delivered <= q.delivered <= p.delivered + RenderAll(log, drain)
            && (|Drain(log, g, p.cursor, limit)| <= |seen| - n ==>
                  && q.delivered == p.delivered + RenderAll(log, drain)
                  && Select(log, g, q.cursor, |log|) == [])
  {
    var p, q := PlayLocally(p0, seen[..n], g, names, limit), PlayLocally(p0, seen, g, names, limit);
    var log := LogBefore(log0, seen, n);
    assert seen == seen[..n] + seen[n..];
    PlayLocallySplit(p0, seen[..n], seen[n..], g, names, limit);
    QuietIsAtRest(log0, seen, n);
    DrainsFrom(log, seen[n..], p, q, g, names, limit);
  }

  lemma DrainsFrom(log: seq<LogRow>, rest: seq<Seen>, p: LocalProgress, q: LocalProgress, g: Filter,
                   names: Option<set<string>>, limit: int)
    requires AtRest(log, rest) && 0 < limit && p.stop.None? && q == PlayLocally(p, rest, g, names, limit)
    ensures var drain := EphemeralDrain(log, g, names, p.cursor, limit);
            && q.stop.None? && p.delivered <= q.delivered <= p.delivered + RenderAll(log, drain)
            && (|Drain(log, g, p.cursor, limit)| <= |rest| ==>
                  q.delivered == p.delivered + RenderAll(log, drain) && Select(log, g, q.cursor, |log|) == [])
  {
    LocalLoopDrains(log, rest, p, g, names, limit);
    DrainedIsPrefix(log, g, names, limit, Min(|rest|, |Drain(log, g, p.cursor, limit)|), p, q);
  }

  // ---------------- Both runners on one log ----------------

  // Names and ids of types that are in one-to-one correspondence name the same type in every row.
  lemma ViewIsCoherent(events: seq<StorageEvent>, keys: KeyIndex, types: NameTable)
    requires OneToOne(types) && References(events, keys, types.byId)
    ensures TypesCoherent(View(events, keys, types.byId), types.byName)
  {
    var rows := View(events, keys, types.byId);
    forall i, t | 0 <= i < |rows| && t in types.byName
      ensures rows[i].eventType == t <==> rows[i].eventTypeId == types.byName[t]
    {
      assert rows[i] == RowOf(events[i], keys, types.byId);
      assert events[i].eventTypeId in types.byId;
    }
  }

  lemma DurableRunDrains(log: seq<LogRow>, seen: seq<Seen>, defined: SubscriptionRow, f: Filter, opts: Options,
                         now: int, cursor: int)
    requires Refusal(defined, log, now).None? && cursor == Placed(defined, log).lastEventId
    requires LogGrows(log, seen) && QuietFrom(seen, 0) && StaysActiveFrom(seen, 0)
    requires |Drain(log, f, cursor, BatchSize(opts))| <= |seen|
    ensures Concat(Answer(log, seen, defined, f, opts, now).delivered)
         == Render(log, Flatten(Drain(log, f, cursor, BatchSize(opts))))
  {
    assert seen[..0] == [];
    RunCatchesUp(log, seen, defined, f, opts, now, 0);
    var batches := Drain(log, f, cursor, BatchSize(opts));
    assert batches[..|batches|] == batches;
    assert Answer(log, [], defined, f, opts, now).delivered == [];
    assert Answer(log, seen, defined, f, opts, now).delivered == RenderAll(log, batches);
    ConcatRendered(log, batches);
  }

  lemma LocalRunDrains(log: seq<LogRow>, seen: seq<Seen>, cursor: int, g: Filter, names: Option<set<string>>,
                       limit: int)
    requires 0 < limit && LogGrows(log, seen) && QuietFrom(seen, 0) && |Drain(log, g, cursor, limit)| <= |seen|
    ensures Concat(PlayLocally(LocalProgress(cursor, [], None), seen, g, names, limit).delivered)
         == Render(log, Flatten(EphemeralDrain(log, g, names, cursor, limit)))
  {
    var p, drain := LocalProgress(cursor, [], None), EphemeralDrain(log, g, names, cursor, limit);
    assert seen[..0] == [] && PlayLocally(p, [], g, names, limit) == p;
    LocalRunCatchesUp(log, seen, p, g, names, limit, 0);
    assert p.delivered + RenderAll(log, drain) == RenderAll(log, drain);
    ConcatRendered(log, drain);
  }

  /**
   A durable run of a subscription that has not read yet and an ephemeral run, with one filter, one start and any two
   batch sizes, on a log at rest: after as many rounds as each has batches to read, both have handed over the same
   events in the same order.
   */
  lemma RunnersAgree(sf: SubscriptionFilter, aggregateIds: map<string, int>, eventIds: map<string, int>,
                     log: seq<LogRow>, defined: SubscriptionRow, start: Start, opts: Options, now: int, seen: seq<Seen>,
                     localOpts: Options, localSeen: seq<Seen>)
    requires Resolves(sf, aggregateIds, eventIds) && TypesCoherent(log, eventIds)
    requires defined.lastEventId == 0 && defined.start == start && MayClaim(defined.lease, now)
    requires DurableCursor(start, log).Some?
    requires LogGrows(log, seen) && QuietFrom(seen, 0) && StaysActiveFrom(seen, 0)
    requires LogGrows(log, localSeen) && QuietFrom(localSeen, 0)
    requires var cursor := DurableCursor(start, log).value;
             && |Drain(log, DurableFilter(sf, aggregateIds, eventIds), cursor, BatchSize(opts))| <= |seen|
             && |Drain(log, EphemeralFilter(sf, aggregateIds, eventIds), cursor, BatchSize(localOpts))| <= |localSeen|
    ensures var f := DurableFilter(sf, aggregateIds, eventIds);
            var g := EphemeralFilter(sf, aggregateIds, eventIds);
            Concat(Answer(log, seen, defined, f, opts, now).delivered)
            == Concat(LocalAnswer(log, localSeen, g, NamesToKeep(sf), start, localOpts).delivered)
  {
    var f, g := DurableFilter(sf, aggregateIds, eventIds), EphemeralFilter(sf, aggregateIds, eventIds);
    var cursor := DurableCursor(start, log).value;
    DurableRunDrains(log, seen, defined, f, opts, now, cursor);
    LocalRunDrains(log, localSeen, cursor, g, NamesToKeep(sf), BatchSize(localOpts));
    ModesAgree(sf, aggregateIds, eventIds, log, start, BatchSize(opts), BatchSize(localOpts));
  }
}
