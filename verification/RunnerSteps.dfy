/** The coded runner as a run of the machine of many runners: what holds of every run holds of the code. */
module RunnerSteps {
  import opened Wrappers
  import opened Records
  import opened EventLog
  import opened EngineTables
  import opened Leases
  import opened Delivery
  import opened DeliveryBounds
  import opened MemoryEngine
  import opened SubscriptionRuns
  import opened SubscriptionTheorems

  // The world's shared state is what the engine stores for the subscription.
  predicate Stores(w: World, log: seq<LogRow>, row: SubscriptionRow) {
    w.log == log && w.cursor == row.lastEventId && w.lease == row.lease && w.start == row.start
  }

  predicate At(w: World, r: int, owner: string, p: Phase) {
    r in w.runners && w.runners[r] == Runner(owner, p)
  }

  // Every step is an engine call or a handler's answer of runner r.
  predicate OnlyOf(steps: seq<Step>, r: int) {
    forall s :: s in steps ==> OfRunner(s, r)
  }

  // The other steps are commits, the clock and the switch.
  predicate OnlyAround(steps: seq<Step>, r: int) {
    forall s :: s in steps ==> s.Append? || s.Tick? || s.Switch? || OfRunner(s, r)
  }

  function Renewed(w: World, r: int, lease: int): World
    requires r in w.runners
  {
    var owner := w.runners[r].owner;
    if MayRenew(w.lease, owner) then
      To(w.(lease := AfterRenew(w.lease, owner, w.clock, lease), granted := w.granted[r := w.clock + lease]), r, Ready)
    else To(w, r, Ready)
  }

  // The world after the reload and the fetch.
  function Read(f: Filter, w: World, r: int, batchSize: int): World
    requires r in w.runners
  {
    var batch := Fetch(w.log, f, w.cursor, batchSize);
    To(To(w, r, Reloaded(w.cursor)), r, if batch == [] then Renewing else Fetched(w.cursor, batch))
  }

  // The world after a batch was handled and the cursor written.
  function Delivered(w: World, r: int, batch: seq<int>): World
    requires r in w.runners && batch != []
  {
    To(To(w.(acked := w.acked + Ids(batch)), r, Handled(w.cursor, batch)).(cursor := Last(batch)), r, Renewing)
  }

  lemma ReadRuns(f: Filter, w: World, r: int, owner: string, batchSize: int) returns (steps: seq<Step>)
    requires At(w, r, owner, Ready) && w.lease.active && 0 < batchSize
    ensures steps == [Reload(r), Poll(r, batchSize)] && Run(f, w, steps) == Some(Read(f, w, r, batchSize))
  {
    steps := [Reload(r), Poll(r, batchSize)];
    RunChain(f, [w, To(w, r, Reloaded(w.cursor)), Read(f, w, r, batchSize)], steps);
  }

  lemma RenewRuns(f: Filter, w: World, r: int, owner: string, lease: int) returns (steps: seq<Step>)
    requires At(w, r, owner, Renewing)
    ensures steps == [Extend(r, lease)] && Run(f, w, steps) == Some(Renewed(w, r, lease))
  {
    steps := [Extend(r, lease)];
    RunChain(f, [w, Renewed(w, r, lease)], steps);
  }

  lemma DeliverRuns(f: Filter, w: World, r: int, owner: string, batch: seq<int>) returns (steps: seq<Step>)
    requires batch != [] && At(w, r, owner, Fetched(w.cursor, batch)) && w.cursor < Last(batch)
    ensures steps == [Succeed(r), Advance(r)] && Run(f, w, steps) == Some(Delivered(w, r, batch))
  {
    var w1 := To(w.(acked := w.acked + Ids(batch)), r, Handled(w.cursor, batch));
    steps := [Succeed(r), Advance(r)];
    RunChain(f, [w, w1, Delivered(w, r, batch)], steps);
  }

  // The world after a turn whose handler, if it is called, answers without an error.
  function SmoothTurn(f: Filter, w: World, r: int, batchSize: int, lease: int): World
    requires r in w.runners
  {
    var batch := Fetch(w.log, f, w.cursor, batchSize);
    var read := Read(f, w, r, batchSize);
    Renewed(if batch == [] then read else Delivered(read, r, batch), r, lease)
  }

  lemma SmoothTurnRuns(f: Filter, w: World, r: int, owner: string, batchSize: int, lease: int)
    returns (steps: seq<Step>)
    requires At(w, r, owner, Ready) && w.lease.active && 0 < batchSize
    ensures steps == [Reload(r), Poll(r, batchSize), Extend(r, lease)]
         || steps == [Reload(r), Poll(r, batchSize), Succeed(r), Advance(r), Extend(r, lease)]
    ensures Run(f, w, steps) == Some(SmoothTurn(f, w, r, batchSize, lease))
  {
    var batch := Fetch(w.log, f, w.cursor, batchSize);
    var read := Read(f, w, r, batchSize);
    steps := ReadRuns(f, w, r, owner, batchSize);
    var more;
    if batch == [] {
      more := RenewRuns(f, read, r, owner, lease);
    } else {
      FetchCovers(w.log, f, w.cursor, batchSize);
      var deliver := DeliverRuns(f, read, r, owner, batch);
      var renew := RenewRuns(f, Delivered(read, r, batch), r, owner, lease);
      RunConcat(f, read, deliver, renew);
      more := deliver + renew;
    }
    RunConcat(f, w, steps, more);
    steps := steps + more;
  }

  lemma FailedTurnRuns(f: Filter, w: World, r: int, owner: string, batchSize: int) returns (steps: seq<Step>)
    requires At(w, r, owner, Ready) && w.lease.active && 0 < batchSize && Fetch(w.log, f, w.cursor, batchSize) != []
    ensures OnlyOf(steps, r) && Run(f, w, steps) == Some(To(Read(f, w, r, batchSize), r, Leaving))
  {
    var read := Read(f, w, r, batchSize);
    var first := ReadRuns(f, w, r, owner, batchSize);
    RunChain(f, [read, To(read, r, Leaving)], [Fail(r)]);
    RunConcat(f, w, first, [Fail(r)]);
    steps := first + [Fail(r)];
  }

  // The world after a turn.
  function TurnEnds(f: Filter, w: World, r: int, batchSize: int, lease: int, handlerOk: bool): World
    requires r in w.runners
  {
    if !w.lease.active then To(w, r, Leaving)
    else if Fetch(w.log, f, w.cursor, batchSize) != [] && !handlerOk then To(Read(f, w, r, batchSize), r, Leaving)
    else SmoothTurn(f, w, r, batchSize, lease)
  }

  lemma TurnRuns(f: Filter, w: World, r: int, owner: string, batchSize: int, lease: int, handlerOk: bool)
    returns (steps: seq<Step>)
    requires At(w, r, owner, Ready) && 0 < batchSize
    ensures OnlyOf(steps, r) && Run(f, w, steps) == Some(TurnEnds(f, w, r, batchSize, lease, handlerOk))
  {
    if !w.lease.active {
      steps := [Reload(r)];
      RunChain(f, [w, To(w, r, Leaving)], steps);
    } else if Fetch(w.log, f, w.cursor, batchSize) != [] && !handlerOk {
      steps := FailedTurnRuns(f, w, r, owner, batchSize);
    } else {
      steps := SmoothTurnRuns(f, w, r, owner, batchSize, lease);
    }
  }

  /**
   One turn of the coded loop is a run of the machine, by this runner's steps alone, from the same stored state to the
   same stored state. The machine counts as handled exactly what the turn handed over, and the runner goes on exactly
   when the loop does.
   */
  lemma TurnIsRun(f: Filter, w: World, row: SubscriptionRow, r: int, opts: Options, round: Round)
    returns (steps: seq<Step>, v: World)
    requires Stores(w, w.log, row) && At(w, r, opts.owner, Ready) && w.clock == round.now
    ensures OnlyOf(steps, r) && Run(f, w, steps) == Some(v)
    ensures var (row', turn) := AfterTurn(row, Seen(round, w.log), f, opts);
            && Stores(v, w.log, row')
            && At(v, r, opts.owner, if turn.Stopped? then Leaving else Ready)
            && v.acked == w.acked + (if turn.Handed? then Ids(Fetch(w.log, f, w.cursor, BatchSize(opts))) else {})
            && v.clock == w.clock && v.floor == w.floor
  {
    steps := TurnRuns(f, w, r, opts.owner, BatchSize(opts), LeaseLength(opts), round.handlerOk);
    v := TurnEnds(f, w, r, BatchSize(opts), LeaseLength(opts), round.handlerOk);
  }

  // ---------------- The rounds of a loop ----------------

  function EventIdsOf(delivered: seq<seq<SerializedEvent>>): set<int> {
    set e | e in Concat(delivered) :: e.eventId
  }

  lemma OneMoreHanded(delivered: seq<seq<SerializedEvent>>, log: seq<LogRow>, batch: seq<int>)
    ensures EventIdsOf(delivered + [Render(log, batch)]) == EventIdsOf(delivered) + Ids(batch)
  {
    var events := Render(log, batch);
    assert (delivered + [events])[..|delivered|] == delivered;
    forall id | id in batch
      ensures id in EventIdsOf(delivered + [events])
    {
      var i :| 0 <= i < |batch| && batch[i] == id;
      assert events[i] in events && events[i].eventId == id;
    }
    forall e | e in events
      ensures e.eventId in batch
    {
      var i :| 0 <= i < |events| && events[i] == e;
      assert e.eventId == batch[i];
    }
  }

  function NowBefore(clock: int, seen: seq<Seen>, n: nat): int
    requires n <= |seen|
  {
    if n == 0 then clock else seen[n - 1].round.now
  }

  predicate NowAt(clock: int, seen: seq<Seen>, n: nat)
    requires n < |seen|
  {
    NowBefore(clock, seen, n) <= seen[n].round.now
  }

  // The runner's clock never goes back.
  predicate ClockRuns(clock: int, seen: seq<Seen>) {
    forall n :: 0 <= n < |seen| ==> NowAt(clock, seen, n)
  }

  lemma ClockRan(clock: int, seen: seq<Seen>)
    requires ClockRuns(clock, seen) && seen != []
    ensures var init := seen[..|seen| - 1];
            ClockRuns(clock, init) && NowBefore(clock, init, |init|) <= seen[|init|].round.now
  {
    var init := seen[..|seen| - 1];
    assert NowAt(clock, seen, |init|);
    forall n | 0 <= n < |init|
      ensures NowAt(clock, init, n)
    {
      assert NowAt(clock, seen, n);
    }
  }

  // The runner has come this far in the world, having begun with these ids handled.
  predicate Reflects(v: World, log: seq<LogRow>, p: Progress, r: int, owner: string, acked: set<int>, floor: nat) {
    && Stores(v, log, p.row)
    && At(v, r, owner, if p.stop.Some? then Leaving else Ready)
    && v.acked == acked + EventIdsOf(p.delivered)
    && v.floor == floor
  }

  // What the others do before the turn: they commit, the clock moves, and someone may deactivate the subscription.
  lemma OthersRun(f: Filter, w: World, log: seq<LogRow>, p: Progress, s: Seen) returns (steps: seq<Step>, v: World)
    requires Stores(w, log, p.row) && log <= s.log && w.clock <= s.round.now
    ensures forall t :: t in steps ==> t.Append? || t.Tick? || t.Switch?
    ensures Run(f, w, steps) == Some(v)
    ensures v == w.(log := s.log, clock := s.round.now, lease := v.lease)
    ensures v.lease == if p.stop.None? then Touched(p.row, s.round).lease else w.lease
  {
    var w1 := w.(log := s.log);
    var w2 := w1.(clock := s.round.now);
    assert w.log + s.log[|log|..] == s.log;
    if p.stop.None? && s.round.deactivate {
      v := w2.(lease := w2.lease.(active := false));
      steps := [Append(s.log[|log|..]), Tick(s.round.now), Switch(false)];
      RunChain(f, [w, w1, w2, v], steps);
    } else {
      v := w2;
      steps := [Append(s.log[|log|..]), Tick(s.round.now)];
      RunChain(f, [w, w1, w2], steps);
    }
  }

  /** A round of the coded loop, with what others do in it, is a run of the machine. */
  lemma RoundIsRun(f: Filter, w: World, log: seq<LogRow>, p: Progress, s: Seen, r: int, opts: Options, acked: set<int>,
                   floor: nat)
    returns (steps: seq<Step>, v: World)
    requires Reflects(w, log, p, r, opts.owner, acked, floor) && log <= s.log && w.clock <= s.round.now
    ensures OnlyAround(steps, r) && Run(f, w, steps) == Some(v)
    ensures Reflects(v, s.log, Moved(p, s, f, opts), r, opts.owner, acked, floor) && v.clock == s.round.now
  {
    var around, w1 := OthersRun(f, w, log, p, s);
    if p.stop.Some? {
      return around, w1;
    }
    var turn;
    turn, v := TurnIsRun(f, w1, Touched(p.row, s.round), r, opts, s.round);
    RunConcat(f, w, around, turn);
    steps := around + turn;
    OneMoreHanded(p.delivered, s.log, Fetch(s.log, f, p.row.lastEventId, BatchSize(opts)));
  }

  // A run of the machine goes on with one more round.
  lemma OneMoreRound(f: Filter, w: World, first: seq<Step>, w1: World, log: seq<LogRow>, p: Progress, q: Progress,
                     s: Seen, r: int, opts: Options, acked: set<int>, floor: nat)
    returns (steps: seq<Step>, v: World)
    requires OnlyAround(first, r) && Run(f, w, first) == Some(w1)
    requires Reflects(w1, log, p, r, opts.owner, acked, floor) && log <= s.log && w1.clock <= s.round.now
    requires q == Moved(p, s, f, opts)
    ensures OnlyAround(steps, r) && Run(f, w, steps) == Some(v)
    ensures Reflects(v, s.log, q, r, opts.owner, acked, floor) && v.clock == s.round.now
  {
    var more;
    more, v := RoundIsRun(f, w1, log, p, s, r, opts, acked, floor);
    RunConcat(f, w, first, more);
    steps := first + more;
  }

  /** So is the whole loop, whatever is committed between its turns. */
  lemma {:induction false} LoopIsRun(f: Filter, w: World, log0: seq<LogRow>, seen: seq<Seen>, p0: Progress, r: int,
                                     opts: Options, acked: set<int>, floor: nat)
    returns (steps: seq<Step>, v: World)
    requires Reflects(w, log0, p0, r, opts.owner, acked, floor) && LogGrows(log0, seen) && ClockRuns(w.clock, seen)
    ensures OnlyAround(steps, r) && Run(f, w, steps) == Some(v)
    ensures Reflects(v, LogBefore(log0, seen, |seen|), Play(p0, seen, f, opts), r, opts.owner, acked, floor)
    ensures v.clock == NowBefore(w.clock, seen, |seen|)
    decreases |seen|
  {
    if seen == [] {
      return [], w;
    }
    var init := seen[..|seen| - 1];
    LogGrewBefore(log0, seen);
    ClockRan(w.clock, seen);
    var first, w1 := LoopIsRun(f, w, log0, init, p0, r, opts, acked, floor);
    var log, p, s := LogBefore(log0, init, |init|), Play(p0, init, f, opts), seen[|init|];
    steps, v := OneMoreRound(f, w, first, w1, log, p, Play(p0, seen, f, opts), s, r, opts, acked, floor);
  }

  // ---------------- Starting ----------------

  // The largest cursor placed so far, after this start.
  function FloorAfter(w: World, row: SubscriptionRow): nat {
    var p := PlaceCursor(row.start, w.log);
    if row.lastEventId == 0 && p.MoveTo? then Max(w.floor, p.cursor) else w.floor
  }

  lemma ClaimRuns(f: Filter, w: World, r: int, lease: int) returns (steps: seq<Step>)
    requires r in w.runners && w.runners[r].phase == Upserted && MayClaim(w.lease, w.clock)
    ensures OnlyOf(steps, r) && Run(f, w, steps) == Some(To(Claims(w, r, lease), r, Loaded(w.cursor, w.start)))
  {
    var claimed := Claims(w, r, lease);
    steps := [Take(r, lease), Load(r)];
    RunChain(f, [w, claimed, To(claimed, r, Loaded(w.cursor, w.start))], steps);
  }

  /**
   A start is a run of the machine too: a refused claim ends the runner and changes nothing stored, and otherwise the
   cursor ends up where the code places it, and the runner is ready unless the start kind is unknown.
   */
  lemma StartIsRun(f: Filter, w: World, row: SubscriptionRow, r: int, opts: Options)
    returns (steps: seq<Step>, v: World)
    requires Stores(w, w.log, row) && At(w, r, opts.owner, Upserted)
    ensures OnlyOf(steps, r) && Run(f, w, steps) == Some(v)
    ensures v.acked == w.acked && v.clock == w.clock
    ensures if !MayClaim(row.lease, w.clock) then r !in v.runners && Stores(v, w.log, row) && v.floor == w.floor
            else
              && Stores(v, w.log, Begun(row, w.log, opts, w.clock).row)
              && At(v, r, opts.owner, if Refusal(row, w.log, w.clock).Some? then Leaving else Ready)
              && v.floor == FloorAfter(w, row)
  {
    var lease := LeaseLength(opts);
    if !MayClaim(w.lease, w.clock) {
      steps, v := [Take(r, lease)], Gone(w, r);
      RunChain(f, [w, v], steps);
    } else {
      var loaded := To(Claims(w, r, lease), r, Loaded(w.cursor, w.start));
      var first := ClaimRuns(f, w, r, lease);
      var more := PlaceRuns(f, loaded, r, opts.owner);
      RunConcat(f, w, first, more);
      steps, v := first + more, CursorPlaced(loaded, r);
    }
  }

  // The world after the cursor was placed.
  function CursorPlaced(w: World, r: int): World
    requires r in w.runners
  {
    match PlaceCursor(w.start, w.log)
    case MoveTo(cursor) =>
      if w.cursor == 0 then To(To(w, r, Placing(cursor)).(cursor := cursor, floor := Max(w.floor, cursor)), r, Ready)
      else To(w, r, Ready)
    case Stay => To(w, r, Ready)
    case Reject => To(w, r, if w.cursor == 0 then Leaving else Ready)
  }

  lemma PlaceRuns(f: Filter, w: World, r: int, owner: string) returns (steps: seq<Step>)
    requires At(w, r, owner, Loaded(w.cursor, w.start))
    ensures OnlyOf(steps, r) && Run(f, w, steps) == Some(CursorPlaced(w, r))
  {
    var p := PlaceCursor(w.start, w.log);
    if w.cursor == 0 && p.MoveTo? {
      steps := [Place(r), WritePlace(r)];
      RunChain(f, [w, To(w, r, Placing(p.cursor)), CursorPlaced(w, r)], steps);
    } else {
      steps := [Place(r)];
      RunChain(f, [w, CursorPlaced(w, r)], steps);
    }
  }

  // ---------------- A whole run ----------------

  // The world after the deferred release.
  function LeftBy(w: World, r: int, owner: string): World {
    Gone(w.(lease := AfterRelease(w.lease, owner)), r)
  }

  lemma LeaveRuns(f: Filter, w: World, r: int, owner: string, stopped: bool) returns (steps: seq<Step>)
    requires At(w, r, owner, if stopped then Leaving else Ready)
    ensures OnlyOf(steps, r) && Run(f, w, steps) == Some(LeftBy(w, r, owner))
  {
    if stopped {
      steps := [GiveUp(r)];
      RunChain(f, [w, LeftBy(w, r, owner)], steps);
    } else {
      steps := [Quit(r), GiveUp(r)];
      assert To(w, r, Leaving).runners - {r} == w.runners - {r};
      RunChain(f, [w, To(w, r, Leaving), LeftBy(w, r, owner)], steps);
    }
  }

  // What a whole run of the code leaves in the world.
  predicate RunReflected(w: World, v: World, log: seq<LogRow>, a: Progress, r: int, floor: nat) {
    Stores(v, log, a.row) && r !in v.runners && v.acked == w.acked + EventIdsOf(a.delivered) && v.floor == floor
  }

  /**
   A whole run of the code, from its claim to the deferred release, over the logs that its turns saw, is a run of the
   machine: with commits, clock readings and a deactivation between the turns, it leaves the same stored row, and the
   machine counts as handled exactly the events that the code handed over.
   */
  lemma CodeIsRun(f: Filter, w: World, seen: seq<Seen>, defined: SubscriptionRow, r: int, opts: Options)
    returns (steps: seq<Step>, v: World)
    requires Stores(w, w.log, defined) && At(w, r, opts.owner, Upserted) && LogGrows(w.log, seen)
    requires ClockRuns(w.clock, seen)
    ensures OnlyAround(steps, r) && Run(f, w, steps) == Some(v)
    ensures var refused := Refusal(defined, w.log, w.clock).Some?;
            RunReflected(w, v, if refused then w.log else LogBefore(w.log, seen, |seen|),
                         Answer(w.log, seen, defined, f, opts, w.clock), r,
                         if refused then w.floor else FloorAfter(w, defined))
  {
    var start, w1 := StartIsRun(f, w, defined, r, opts);
    assert EventIdsOf([]) == {};
    if !MayClaim(defined.lease, w.clock) {
      return start, w1;
    }
    var begun := Begun(defined, w.log, opts, w.clock);
    var refused := Refusal(defined, w.log, w.clock).Some?;
    var loop, w2 := [], w1;
    if !refused {
      loop, w2 := LoopIsRun(f, w1, w.log, seen, begun, r, opts, w.acked, FloorAfter(w, defined));
    }
    var leave := LeaveRuns(f, w2, r, opts.owner, refused || Play(begun, seen, f, opts).stop.Some?);
    RunConcat(f, w, start, loop);
    RunConcat(f, w, start + loop, leave);
    steps, v := start + loop + leave, LeftBy(w2, r, opts.owner);
  }

  /**
   After any history of any number of runners, a run of the code adds to what they handled: every matching event that
   the stored cursor has passed, above the largest cursor ever placed, was handled by them or handed over in this run.
   */
  lemma {:induction false} CodeDeliversAtLeastOnce(f: Filter, log: seq<LogRow>, clock: int, history: seq<Step>,
                                                   w: World, seen: seq<Seen>, defined: SubscriptionRow, r: int,
                                                   opts: Options)
    requires Run(f, Fresh(log, clock), history) == Some(w)
    requires Stores(w, w.log, defined) && At(w, r, opts.owner, Upserted) && LogGrows(w.log, seen)
    requires ClockRuns(w.clock, seen)
    requires Refusal(defined, w.log, w.clock).None?
    ensures var a := Answer(w.log, seen, defined, f, opts, w.clock);
            var now := LogBefore(w.log, seen, |seen|);
            forall id :: FloorAfter(w, defined) < id <= a.row.lastEventId && id <= |now| && Matches(f, now[id - 1]) ==>
              id in w.acked + EventIdsOf(a.delivered)
  {
    var steps, v := CodeIsRun(f, w, seen, defined, r, opts);
    RunConcat(f, Fresh(log, clock), history, steps);
    AtLeastOnce(f, log, clock, history + steps);
  }
}
