/** Single steps of both runners in terms of the caller's options: batch sizes, leases, and why a run stops. */
module Turns {
  import opened Wrappers
  import opened Records
  import opened EventLog
  import opened EngineTables
  import opened Leases
  import opened Draining
  import opened MemoryEngine
  import opened SubscriptionRuns

  // The first events that are left, as many as the caller's batch size, or 100 if the caller gives none.
  ghost predicate IsBatch(left: seq<int>, batchSize: int, batch: seq<int>) {
    batch <= left && |batch| == Min(|left|, if 0 < batchSize then batchSize else 100)
  }

  // Held by the caller, for the caller's lease length from now, or for 15 seconds if the caller gives none.
  predicate LeasedTo(l: LeaseRecord, opts: Options, now: int) {
    && l.active && l.owner == Some(opts.owner)
    && l.expires == Some(now + if 0 < opts.lease then opts.lease else 15_000_000_000)
  }

  /**
   A turn stops exactly for a subscription that is not active, or a handler that fails on events that are there.
   Otherwise it hands over the first batch of what is left, if any, stores its last id, and holds the lease anew.
   */
  lemma TurnExactly(p: Progress, s: Seen, f: Filter, opts: Options) returns (batch: seq<int>)
    requires p.stop.None?
    ensures IsBatch(Select(s.log, f, p.row.lastEventId, |s.log|), opts.batchSize, batch)
    ensures var q, active := Moved(p, s, f, opts), p.row.lease.active && !s.round.deactivate;
            && (q.stop == Some(Inactive) <==> !active)
            && (q.stop == Some(HandlerFailed) <==> active && batch != [] && !s.round.handlerOk)
            && (q.stop.None? <==> active && (batch == [] || s.round.handlerOk))
            && q.delivered
            == (if q.stop.None? && batch != [] then p.delivered + [Render(s.log, batch)] else p.delivered)
            && q.row.lastEventId == (if q.stop.None? && batch != [] then Last(batch) else p.row.lastEventId)
            && (q.stop.Some? || p.row.lease.owner != Some(opts.owner) ==> q.row.lease == p.row.lease.(active := active))
            && (q.stop.None? && p.row.lease.owner == Some(opts.owner) ==> LeasedTo(q.row.lease, opts, s.round.now))
            && q.row == p.row.(lastEventId := q.row.lastEventId, lease := q.row.lease)
  {
    batch := Fetch(s.log, f, p.row.lastEventId, BatchSize(opts));
  }

  /** A claim that is not refused holds the lease in the caller's name. Of the rest only the cursor may change. */
  lemma ClaimExactly(defined: SubscriptionRow, log: seq<LogRow>, opts: Options, now: int)
    ensures Refusal(defined, log, now) == Some(AlreadyOwned)
            <==> !defined.lease.active
                 || (defined.lease.owner.Some? && defined.lease.expires.Some? && now <= defined.lease.expires.value)
    ensures var row := Begun(defined, log, opts, now).row;
            && (Refusal(defined, log, now) != Some(AlreadyOwned) ==> LeasedTo(row.lease, opts, now))
            && row == defined.(lastEventId := row.lastEventId, lease := row.lease)
  {
  }

  /** The same of the local loop, which passes over batches of which nothing is kept without its handler. */
  lemma LocalTurnExactly(p: LocalProgress, s: Seen, g: Filter, names: Option<set<string>>, opts: Options)
    returns (batch: seq<int>)
    requires p.stop.None?
    ensures IsBatch(Select(s.log, g, p.cursor, |s.log|), opts.batchSize, batch) && InLog(s.log, batch)
    ensures var q, kept := MovedLocally(p, s, g, names, BatchSize(opts)), KeepNames(s.log, names, batch);
            && (q.stop == Some(HandlerFailed) <==> kept != [] && !s.round.handlerOk)
            && (q.stop.None? <==> kept == [] || s.round.handlerOk)
            && q.delivered == (if q.stop.None? && kept != [] then p.delivered + [Render(s.log, kept)] else p.delivered)
            && q.cursor == (if q.stop.None? && batch != [] then Last(batch) else p.cursor)
  {
    batch := FetchInLog(s.log, g, p.cursor, BatchSize(opts));
  }

  /** A loop that stops does so in one of its turns, and nothing that would have come after it changes the answer. */
  lemma {:induction false} StopsInATurn(p: Progress, seen: seq<Seen>, f: Filter, opts: Options) returns (n: nat)
    requires p.stop.None? && Play(p, seen, f, opts).stop.Some?
    ensures n < |seen| && Play(p, seen[..n], f, opts).stop.None?
    ensures Play(p, seen, f, opts) == Moved(Play(p, seen[..n], f, opts), seen[n], f, opts)
    decreases |seen|
  {
    var init := seen[..|seen| - 1];
    if Play(p, init, f, opts).stop.None? {
      n := |init|;
    } else {
      n := StopsInATurn(p, init, f, opts);
      assert init[..n] == seen[..n];
    }
  }
}
