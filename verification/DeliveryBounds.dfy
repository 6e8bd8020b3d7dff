/** Consequences of at-least-once delivery: what a start position may skip, and that no run gets stuck. */
module DeliveryBounds {
  import opened Wrappers
  import opened Records
  import opened EventLog
  import opened Leases
  import opened Delivery

  // The start skips no event that is both above id n and not earlier than ts.
  predicate Modest(start: Start, n: int, ts: int) {
    match start.kind
    case Beginning => true
    case EventId => start.eventId <= n
    case Timestamp => start.timestamp <= ts
    case End => false
    case _ => true
  }

  predicate ModestStep(s: Step, n: int, ts: int) {
    s.Register? ==> Modest(s.start, n, ts)
  }

  predicate Early(log: seq<LogRow>, id: int, n: int, ts: int) {
    id <= n || (1 <= id <= |log| && log[id - 1].eventTime < ts)
  }

  // An event up to `upto` may have been skipped only for being at or below n or earlier than ts.
  predicate Skippable(log: seq<LogRow>, upto: int, n: int, ts: int) {
    forall id :: 1 <= id <= upto ==> Early(log, id, n, ts)
  }

  lemma SkippableGrows(log: seq<LogRow>, longer: seq<LogRow>, upto: int, n: int, ts: int)
    requires log <= longer && Skippable(log, upto, n, ts)
    ensures Skippable(longer, upto, n, ts)
  {
    forall id | 1 <= id <= upto
      ensures Early(longer, id, n, ts)
    {
      assert Early(log, id, n, ts);
    }
  }

  predicate ModestPhase(log: seq<LogRow>, p: Phase, n: int, ts: int) {
    && (p.Loaded? ==> Modest(p.start, n, ts))
    && (p.Placing? ==> Skippable(log, p.target, n, ts))
  }

  ghost predicate ModestInv(w: World, n: int, ts: int) {
    && Modest(w.start, n, ts)
    && Skippable(w.log, w.floor, n, ts)
    && forall r :: r in w.runners ==> ModestPhase(w.log, w.runners[r].phase, n, ts)
  }

  lemma PlaceIsModest(start: Start, log: seq<LogRow>, n: int, ts: int)
    requires Modest(start, n, ts) && PlaceCursor(start, log).MoveTo?
    ensures Skippable(log, PlaceCursor(start, log).cursor, n, ts)
  {
    if start.kind == Timestamp {
      TimestampStartSkipsOnlyEarlier(start, log);
    }
  }

  lemma StepKeepsModest(f: Filter, w: World, s: Step, n: int, ts: int)
    requires ModestInv(w, n, ts) && ModestStep(s, n, ts) && Next(f, w, s).Some?
    ensures ModestInv(Next(f, w, s).value, n, ts)
  {
    var v := Next(f, w, s).value;
    SkippableGrows(w.log, v.log, w.floor, n, ts);
    if s.Place? && w.runners[s.r].phase.seen == 0 && PlaceCursor(w.runners[s.r].phase.start, w.log).MoveTo? {
      PlaceIsModest(w.runners[s.r].phase.start, w.log, n, ts);
    }
    forall r | r in v.runners
      ensures ModestPhase(v.log, v.runners[r].phase, n, ts)
    {
      if r in w.runners && v.runners[r] == w.runners[r] && w.runners[r].phase.Placing? {
        SkippableGrows(w.log, v.log, w.runners[r].phase.target, n, ts);
      }
    }
  }

  lemma {:induction false} RunKeepsModest(f: Filter, w: World, steps: seq<Step>, n: int, ts: int)
    requires ModestInv(w, n, ts) && Run(f, w, steps).Some?
    requires forall s :: s in steps ==> ModestStep(s, n, ts)
    ensures ModestInv(Run(f, w, steps).value, n, ts)
  {
    if steps != [] {
      var init := steps[..|steps| - 1];
      RunKeepsModest(f, w, init, n, ts);
      StepKeepsModest(f, Run(f, w, init).value, steps[|steps| - 1], n, ts);
    }
  }

  /**
   However often runners restart with timestamps up to ts and event ids up to n, every matching event above n that
   is not earlier than ts has been handled once the cursor has passed it.
   */
  lemma StartSkipsOnlyWhatItNames(f: Filter, log: seq<LogRow>, clock: int, steps: seq<Step>, n: int, ts: int, id: int)
    requires Run(f, Fresh(log, clock), steps).Some?
    requires forall s :: s in steps ==> ModestStep(s, n, ts)
    requires var w := Run(f, Fresh(log, clock), steps).value;
             && 1 <= id <= |w.log| && id <= w.cursor && n < id
             && Matches(f, w.log[id - 1]) && ts <= w.log[id - 1].eventTime
    ensures id in Run(f, Fresh(log, clock), steps).value.acked
  {
    AtLeastOnce(f, log, clock, steps);
    RunKeepsModest(f, Fresh(log, clock), steps, n, ts);
    var w := Run(f, Fresh(log, clock), steps).value;
    assert w.floor < id || Early(w.log, id, n, ts);
  }

  /** When every runner starts at the beginning, the cursor passes no matching event that was not handled. */
  lemma BeginningSkipsNothing(f: Filter, log: seq<LogRow>, clock: int, steps: seq<Step>, id: int)
    requires Run(f, Fresh(log, clock), steps).Some?
    requires forall s :: s in steps && s.Register? ==> s.start.kind == Beginning
    requires var w := Run(f, Fresh(log, clock), steps).value;
             1 <= id <= |w.log| && id <= w.cursor && Matches(f, w.log[id - 1])
    ensures id in Run(f, Fresh(log, clock), steps).value.acked
  {
    var w := Run(f, Fresh(log, clock), steps).value;
    StartSkipsOnlyWhatItNames(f, log, clock, steps, 0, w.log[id - 1].eventTime, id);
  }

  // The step is a call of runner r.
  predicate OfRunner(s: Step, r: int) {
    !s.Append? && !s.Tick? && !s.Switch? && s.r == r
  }

  // ---------------- No run gets stuck ----------------

  lemma {:induction false} RunConcat(f: Filter, w: World, a: seq<Step>, b: seq<Step>)
    requires Run(f, w, a).Some?
    ensures Run(f, w, a + b) == Run(f, Run(f, w, a).value, b)
    decreases |b|
  {
    if b == [] {
      assert a + b == a;
    } else {
      var init := b[..|b| - 1];
      RunConcat(f, w, a, init);
      assert (a + b)[..|a + b| - 1] == a + init;
    }
  }

  lemma {:induction false} RunChain(f: Filter, worlds: seq<World>, steps: seq<Step>)
    requires |worlds| == |steps| + 1
    requires forall i :: 0 <= i < |steps| ==> Next(f, worlds[i], steps[i]) == Some(worlds[i + 1])
    ensures Run(f, worlds[0], steps) == Some(worlds[|steps|])
    decreases |steps|
  {
    if steps != [] {
      RunChain(f, worlds[..|steps|], steps[..|steps| - 1]);
    }
  }

  function Began(w: World, r: int, owner: string): World {
    w.(start := Start(Beginning, 0, ZERO_TIME), runners := w.runners[r := Runner(owner, Upserted)])
  }

  function Claims(w: World, r: int, lease: int): World
    requires r in w.runners
  {
    var claimed := AfterClaim(w.lease, w.runners[r].owner, w.clock, lease);
    To(w.(lease := claimed, granted := w.granted[r := w.clock + lease]), r, Claimed)
  }

  // The lease is active and has run out, and so has what runner `other` was granted.
  function Late(w: World, other: int): World {
    var expired := if w.lease.expires.Some? then w.lease.expires.value + 1 else w.clock;
    var out := if other in w.granted then w.granted[other] + 1 else w.clock;
    w.(lease := w.lease.(active := true), clock := Max(w.clock, Max(expired, out)))
  }

  // A runner that is out of the way starts anew and gets the lease once the old one has run out.
  lemma Restart(f: Filter, w: World, r: int, owner: string) returns (steps: seq<Step>, v: World)
    requires r !in w.runners
    ensures Run(f, w, steps) == Some(v)
    ensures r in v.runners && v.runners[r].phase == Claimed && v.lease.active
    ensures v.log == w.log && v.cursor == w.cursor && v.floor == w.floor && v.start.kind == Beginning
  {
    var w1 := w.(lease := w.lease.(active := true));
    var w2 := Late(w, r);
    var w3 := Began(w2, r, owner);
    v := Claims(w3, r, 1);
    steps := [Switch(true), Tick(w2.clock), Register(r, owner, w3.start), Take(r, 1)];
    RunChain(f, [w, w1, w2, w3, v], steps);
  }

  // The step neither claims the lease nor writes the cursor.
  predicate Harmless(s: Step) {
    !s.Take? && !s.WritePlace? && !s.Advance?
  }

  lemma ReadAll(f: Filter, w: World, r: int, limit: int) returns (steps: seq<Step>, v: World)
    requires r in w.runners && w.runners[r].phase == Claimed && w.lease.active && w.start.kind == Beginning
    requires 0 < limit
    ensures Run(f, w, steps) == Some(v) && forall s :: s in steps ==> Harmless(s) && OfRunner(s, r)
    ensures v == To(w, r, var batch := Fetch(w.log, f, w.cursor, limit);
                          if batch == [] then Renewing else Fetched(w.cursor, batch))
  {
    var w1 := To(w, r, Loaded(w.cursor, w.start));
    var w2 := To(w1, r, Ready);
    var w3 := To(w2, r, Reloaded(w.cursor));
    var batch := Fetch(w.log, f, w.cursor, limit);
    v := To(w3, r, if batch == [] then Renewing else Fetched(w.cursor, batch));
    steps := [Load(r), Place(r), Reload(r), Poll(r, limit)];
    RunChain(f, [w, w1, w2, w3, v], steps);
    assert v.runners == w.runners[r := v.runners[r]];
  }

  // From the top of its start-up, a runner alone handles everything that is left in one poll.
  lemma DrainFromClaimed(f: Filter, w: World, r: int) returns (steps: seq<Step>, v: World)
    requires r in w.runners && w.runners[r].phase == Claimed && w.lease.active && w.start.kind == Beginning
    ensures Run(f, w, steps) == Some(v)
    ensures v.log == w.log && v.floor == w.floor && Select(v.log, f, v.cursor, |v.log|) == []
  {
    var limit := |w.log| + 1;
    steps, v := ReadAll(f, w, r, limit);
    var batch := Fetch(w.log, f, w.cursor, limit);
    if batch != [] {
      WholeBatch(w.log, f, w.cursor, limit);
      var w1 := To(v.(acked := v.acked + Ids(batch)), r, Handled(w.cursor, batch));
      var w2 := To(w1.(cursor := Last(batch)), r, Renewing);
      RunChain(f, [v, w1, w2], [Succeed(r), Advance(r)]);
      RunConcat(f, w, steps, [Succeed(r), Advance(r)]);
      steps, v := steps + [Succeed(r), Advance(r)], w2;
    } else {
      FetchCovers(w.log, f, w.cursor, limit);
    }
  }

  // A large enough batch leaves nothing after it.
  lemma WholeBatch(log: seq<LogRow>, f: Filter, cursor: int, limit: int)
    requires |log| < limit && Fetch(log, f, cursor, limit) != []
    ensures var last := Last(Fetch(log, f, cursor, limit)); cursor < last <= |log| && Select(log, f, last, |log|) == []
  {
    FetchCovers(log, f, cursor, limit);
    SelectFits(log, f, cursor, |log|);
    SelectSplit(log, f, cursor, Last(Fetch(log, f, cursor, limit)), |log|);
  }

  lemma {:induction false} SelectFits(log: seq<LogRow>, f: Filter, lo: int, hi: int)
    requires hi <= |log|
    ensures |Select(log, f, lo, hi)| <= Max(hi, 0)
    decreases Max(hi, 0)
  {
    if lo < hi && 0 < hi {
      SelectFits(log, f, lo, hi - 1);
    }
  }

  // From any world: whatever runner r was doing it crashes, starts anew and handles everything that is left.
  lemma CatchUp(f: Filter, w: World, r: int) returns (more: seq<Step>, v: World)
    ensures Run(f, w, more) == Some(v)
    ensures v.log == w.log && v.floor == w.floor && Select(v.log, f, v.cursor, |v.log|) == []
  {
    var crash := if r in w.runners then [Crash(r)] else [];
    var w0 := if r in w.runners then Gone(w, r) else w;
    RunChain(f, if r in w.runners then [w, w0] else [w], crash);
    var first, w1 := Restart(f, w0, r, "");
    var second;
    second, v := DrainFromClaimed(f, w1, r);
    RunConcat(f, w0, first, second);
    RunConcat(f, w, crash, first + second);
    more := crash + (first + second);
  }

  // Every matching event above the floor has been handled.
  ghost predicate AllHandled(f: Filter, w: World) {
    forall id :: w.floor < id <= |w.log| && Matches(f, w.log[id - 1]) ==> id in w.acked
  }

  lemma NothingLeft(f: Filter, w: World)
    requires Reached(f, w, w.cursor) && Select(w.log, f, w.cursor, |w.log|) == []
    ensures AllHandled(f, w)
  {
    SelectExact(w.log, f, w.cursor, |w.log|);
    forall id | w.floor < id <= |w.log| && Matches(f, w.log[id - 1])
      ensures id in w.acked
    {
      assert id !in Select(w.log, f, w.cursor, |w.log|);
    }
  }

  // Continuing the run with `more`, without new events, handles every matching event above the floor.
  ghost predicate CatchesUp(f: Filter, w: World, more: seq<Step>) {
    && Run(f, w, more).Some?
    && var v := Run(f, w, more).value;
       v.log == w.log && v.floor == w.floor && AllHandled(f, v)
  }

  /** No reachable world is stuck: whatever crashed or went stale, some continuation catches up. */
  lemma CanAlwaysCatchUp(f: Filter, log: seq<LogRow>, clock: int, steps: seq<Step>)
    requires Run(f, Fresh(log, clock), steps).Some?
    ensures exists more :: CatchesUp(f, Run(f, Fresh(log, clock), steps).value, more)
  {
    var w := Run(f, Fresh(log, clock), steps).value;
    var more, v := CatchUp(f, w, 0);
    RunKeepsDeliveryInv(f, Fresh(log, clock), steps);
    RunKeepsDeliveryInv(f, w, more);
    NothingLeft(f, v);
    assert CatchesUp(f, w, more);
  }
}
