/**
 Any number of runners on one durable subscription, interleaved one engine call at a time.

 The log only grows, and the filter is the same for every runner. Everything else may happen: leases that run
 out under a runner that keeps going, handlers that fail, runners that crash between two calls and start again.
 */
module Delivery {
  import opened Wrappers
  import opened Records
  import opened EventLog
  import opened Leases

  /** Where a runner stands between two engine calls, with what it read on the way. */
  datatype Phase =
    | Upserted
    | Claimed
    | Loaded(seen: int, start: Start)
    | Placing(target: int)
    | Ready
    | Reloaded(seen: int)
    | Fetched(seen: int, batch: seq<int>)
    | Handled(seen: int, batch: seq<int>)
    | Renewing
    | Leaving

  /** A call of a runner, with the owner name it goes by. Nothing keeps two runners from going by one name. */
  datatype Runner = Runner(owner: string, phase: Phase)

  /**
   The stored subscription, the log, the runners, and three history variables: `granted` is the expiry each live
   runner was last granted, `acked` the ids given to handler calls that returned nil, and `floor` the largest
   cursor that any runner wrote while placing the cursor. All runners read one clock.
   */
  datatype World = World(
    log: seq<LogRow>,
    cursor: int,
    start: Start,
    lease: LeaseRecord,
    clock: int,
    runners: map<int, Runner>,
    granted: map<int, int>,
    acked: set<int>,
    floor: nat)

  datatype Step =
    | Append(rows: seq<LogRow>)
    | Tick(now: int)
    | Switch(on: bool)
    | Register(r: int, owner: string, start: Start)
    | Take(r: int, lease: int)
    | Load(r: int)
    | Place(r: int)
    | WritePlace(r: int)
    | Reload(r: int)
    | Poll(r: int, limit: int)
    | Succeed(r: int)
    | Fail(r: int)
    | Advance(r: int)
    | Extend(r: int, lease: int)
    | Quit(r: int)
    | GiveUp(r: int)
    | Crash(r: int)

  function Fresh(log: seq<LogRow>, clock: int): World {
    World(log, 0, Start(Beginning, 0, ZERO_TIME), LeaseRecord(true, None, None), clock, map[], map[], {}, 0)
  }

  function Ids(batch: seq<int>): set<int> {
    set id | id in batch
  }

  function To(w: World, r: int, p: Phase): World
    requires r in w.runners
  {
    w.(runners := w.runners[r := w.runners[r].(phase := p)])
  }

  function Gone(w: World, r: int): World {
    w.(runners := w.runners - {r}, granted := w.granted - {r})
  }

  /** A step's effect, or None where the step cannot be taken. */
  function Next(f: Filter, w: World, s: Step): Option<World> {
    match s
    case Append(rows) => Some(w.(log := w.log + rows))
    case Tick(now) => if w.clock <= now then Some(w.(clock := now)) else None
    case Switch(on) => Some(w.(lease := w.lease.(active := on)))
    case Register(r, owner, start) =>
      if r in w.runners then None else Some(w.(start := start, runners := w.runners[r := Runner(owner, Upserted)]))
    case Crash(r) => if r in w.runners then Some(Gone(w, r)) else None
    case _ =>
      if s.r !in w.runners then None else RunnerStep(f, w, s, w.runners[s.r].owner, w.runners[s.r].phase)
  }

  function RunnerStep(f: Filter, w: World, s: Step, owner: string, p: Phase): Option<World>
    requires !s.Append? && !s.Tick? && !s.Switch? && !s.Register? && !s.Crash?
    requires s.r in w.runners && w.runners[s.r] == Runner(owner, p)
  {
    match s
    case Take(r, lease) =>
      if !p.Upserted? then None
      else if MayClaim(w.lease, w.clock) then
        Some(To(w.(lease := AfterClaim(w.lease, owner, w.clock, lease), granted := w.granted[r := w.clock + lease]), r,
                Claimed))
      else Some(Gone(w, r))
    case Load(r) => if p.Claimed? then Some(To(w, r, Loaded(w.cursor, w.start))) else None
    case Place(r) =>
      if !p.Loaded? then None
      else if p.seen != 0 then Some(To(w, r, Ready))
      else (
        match PlaceCursor(p.start, w.log)
        case Stay => Some(To(w, r, Ready))
        case MoveTo(target) => Some(To(w, r, Placing(target)))
        case Reject => Some(To(w, r, Leaving))
      )
    case WritePlace(r) =>
      if p.Placing? then Some(To(w.(cursor := p.target, floor := Max(w.floor, p.target)), r, Ready)) else None
    case Reload(r) =>
      if !p.Ready? then None
      else if w.lease.active then Some(To(w, r, Reloaded(w.cursor)))
      else Some(To(w, r, Leaving))
    case Poll(r, limit) =>
      if !p.Reloaded? || limit <= 0 then None
      else
        var batch := Fetch(w.log, f, p.seen, limit);
        Some(To(w, r, if batch == [] then Renewing else Fetched(p.seen, batch)))
    case Succeed(r) =>
      if p.Fetched? then Some(To(w.(acked := w.acked + Ids(p.batch)), r, Handled(p.seen, p.batch))) else None
    case Fail(r) => if p.Fetched? then Some(To(w, r, Leaving)) else None
    case Advance(r) =>
      if !p.Handled? || p.batch == [] then None
      else if p.seen < Last(p.batch) then Some(To(w.(cursor := Last(p.batch)), r, Renewing))
      else Some(To(w, r, Renewing))
    case Extend(r, lease) =>
      if !p.Renewing? then None
      else if MayRenew(w.lease, owner) then
        Some(To(w.(lease := AfterRenew(w.lease, owner, w.clock, lease), granted := w.granted[r := w.clock + lease]), r,
                Ready))
      else Some(To(w, r, Ready))
    case Quit(r) => if p.Upserted? then Some(Gone(w, r)) else Some(To(w, r, Leaving))
    case GiveUp(r) => if p.Leaving? then Some(Gone(w.(lease := AfterRelease(w.lease, owner)), r)) else None
  }

  /** The world after a run, or None if some step could not be taken. */
  function Run(f: Filter, w: World, steps: seq<Step>): Option<World> {
    if steps == [] then Some(w)
    else
      match Run(f, w, steps[..|steps| - 1])
      case None => None
      case Some(v) => Next(f, v, steps[|steps| - 1])
  }

  // ---------------- At-least-once delivery ----------------

  // Every matching event above the floor and at or below n has been handled.
  ghost predicate Covered(f: Filter, w: World, n: int) {
    forall id :: w.floor < id <= n && id <= |w.log| && Matches(f, w.log[id - 1]) ==> id in w.acked
  }

  ghost predicate Reached(f: Filter, w: World, n: int) {
    n <= Max(|w.log|, w.floor) && Covered(f, w, n)
  }

  ghost predicate BatchFits(f: Filter, w: World, seen: int, batch: seq<int>) {
    && batch != []
    && Max(seen, 0) < Last(batch) <= |w.log|
    && batch == Select(w.log, f, seen, Last(batch))
  }

  ghost predicate PhaseOk(f: Filter, w: World, p: Phase) {
    match p
    case Reloaded(seen) => Reached(f, w, seen)
    case Fetched(seen, batch) => Reached(f, w, seen) && BatchFits(f, w, seen, batch)
    case Handled(seen, batch) => BatchFits(f, w, seen, batch) && Reached(f, w, Last(batch))
    case _ => true
  }

  ghost predicate DeliveryInv(f: Filter, w: World) {
    && Reached(f, w, w.cursor)
    && (forall r :: r in w.runners ==> PhaseOk(f, w, w.runners[r].phase))
    && (forall id :: id in w.acked ==> 1 <= id <= |w.log| && Matches(f, w.log[id - 1]))
  }

  // Nothing that a runner relied on is lost when the log grows, more is handled, or the floor rises.
  ghost predicate Grows(w: World, v: World) {
    w.log <= v.log && w.acked <= v.acked && w.floor <= v.floor
  }

  lemma ReachedGrows(f: Filter, w: World, v: World, n: int)
    requires Grows(w, v) && Reached(f, w, n)
    ensures Reached(f, v, n)
  {
    forall id | v.floor < id <= n && id <= |v.log| && Matches(f, v.log[id - 1])
      ensures id in v.acked
    {
      assert v.log[id - 1] == w.log[id - 1];
    }
  }

  lemma PhaseGrows(f: Filter, w: World, v: World, p: Phase)
    requires Grows(w, v) && PhaseOk(f, w, p)
    ensures PhaseOk(f, v, p)
  {
    match p
    case Reloaded(seen) => ReachedGrows(f, w, v, seen);
    case Fetched(seen, batch) =>
      ReachedGrows(f, w, v, seen);
      SelectStable(w.log, v.log, f, seen, Last(batch));
    case Handled(seen, batch) =>
      ReachedGrows(f, w, v, Last(batch));
      SelectStable(w.log, v.log, f, seen, Last(batch));
    case _ =>
  }

  lemma NextGrows(f: Filter, w: World, s: Step)
    requires DeliveryInv(f, w) && Next(f, w, s).Some?
    ensures Grows(w, Next(f, w, s).value)
  {
  }

  // Handling the batch that follows a reached position reaches the end of the batch.
  lemma SucceedReaches(f: Filter, w: World, v: World, seen: int, batch: seq<int>)
    requires Reached(f, w, seen) && BatchFits(f, w, seen, batch)
    requires v.log == w.log && v.floor == w.floor && v.acked == w.acked + Ids(batch)
    ensures Reached(f, v, Last(batch))
  {
    SelectExact(w.log, f, seen, Last(batch));
    forall id | v.floor < id <= Last(batch) && id <= |v.log| && Matches(f, v.log[id - 1])
      ensures id in v.acked
    {
      if seen < id && 0 < id {
        assert id in batch;
      }
    }
  }

  // The one phase that a step gives its own runner.
  lemma OwnPhaseOk(f: Filter, w: World, s: Step)
    requires Reached(f, w, w.cursor) && Next(f, w, s).Some?
    requires !s.Append? && !s.Tick? && !s.Switch?
    requires s.r in w.runners ==> PhaseOk(f, w, w.runners[s.r].phase)
    requires s.r in Next(f, w, s).value.runners
    ensures PhaseOk(f, Next(f, w, s).value, Next(f, w, s).value.runners[s.r].phase)
  {
    var v := Next(f, w, s).value;
    match s
    case Reload(r) => ReachedGrows(f, w, v, w.cursor);
    case Poll(r, limit) =>
      FetchCovers(w.log, f, w.runners[r].phase.seen, limit);
      ReachedGrows(f, w, v, w.runners[r].phase.seen);
    case Succeed(r) => SucceedReaches(f, w, v, w.runners[r].phase.seen, w.runners[r].phase.batch);
    case _ =>
  }

  lemma CursorReached(f: Filter, w: World, s: Step)
    requires DeliveryInv(f, w) && Next(f, w, s).Some?
    ensures Reached(f, Next(f, w, s).value, Next(f, w, s).value.cursor)
  {
    var v := Next(f, w, s).value;
    if s.WritePlace? {
      assert v.cursor <= v.floor;
    } else {
      NextGrows(f, w, s);
      var n := if s.Advance? then Last(w.runners[s.r].phase.batch) else w.cursor;
      assert s.Advance? ==> PhaseOk(f, w, w.runners[s.r].phase);
      ReachedGrows(f, w, v, n);
      ReachedGrows(f, w, v, w.cursor);
    }
  }

  lemma AckedMatch(f: Filter, w: World, s: Step)
    requires DeliveryInv(f, w) && Next(f, w, s).Some?
    ensures var v := Next(f, w, s).value; forall id :: id in v.acked ==> 1 <= id <= |v.log| && Matches(f, v.log[id - 1])
  {
    var v := Next(f, w, s).value;
    if s.Succeed? {
      var p := w.runners[s.r].phase;
      SelectExact(w.log, f, p.seen, Last(p.batch));
    }
    assert w.log <= v.log;
  }

  lemma StepKeepsDeliveryInv(f: Filter, w: World, s: Step)
    requires DeliveryInv(f, w) && Next(f, w, s).Some?
    ensures DeliveryInv(f, Next(f, w, s).value)
  {
    var v := Next(f, w, s).value;
    NextGrows(f, w, s);
    CursorReached(f, w, s);
    AckedMatch(f, w, s);
    forall r | r in v.runners
      ensures PhaseOk(f, v, v.runners[r].phase)
    {
      if !s.Append? && !s.Tick? && !s.Switch? && r == s.r {
        OwnPhaseOk(f, w, s);
      } else {
        assert v.runners[r] == w.runners[r];
        PhaseGrows(f, w, v, w.runners[r].phase);
      }
    }
  }

  lemma {:induction false} RunKeepsDeliveryInv(f: Filter, w: World, steps: seq<Step>)
    requires DeliveryInv(f, w) && Run(f, w, steps).Some?
    ensures DeliveryInv(f, Run(f, w, steps).value)
  {
    if steps != [] {
      var init := steps[..|steps| - 1];
      RunKeepsDeliveryInv(f, w, init);
      StepKeepsDeliveryInv(f, Run(f, w, init).value, steps[|steps| - 1]);
    }
  }

  /**
   At least once: after every run, each matching event above the floor and at or below the stored cursor was part
   of a handler call that returned nil. And nothing but matching events was ever handled.
   */
  lemma AtLeastOnce(f: Filter, log: seq<LogRow>, clock: int, steps: seq<Step>)
    requires Run(f, Fresh(log, clock), steps).Some?
    ensures var w := Run(f, Fresh(log, clock), steps).value;
            && (forall id :: w.floor < id <= w.cursor && id <= |w.log| && Matches(f, w.log[id - 1]) ==> id in w.acked)
            && (forall id :: id in w.acked ==> 1 <= id <= |w.log| && Matches(f, w.log[id - 1]))
  {
    RunKeepsDeliveryInv(f, Fresh(log, clock), steps);
  }
}
