/** A runner that keeps going catches up, whatever the other runners do short of writing the cursor. */
module CatchingUp {
  import opened Wrappers
  import opened Records
  import opened EventLog
  import opened Draining
  import opened Delivery
  import opened DeliveryBounds
  import opened RunnerSteps

  /**
   Runner r reads with this batch size, and its handler does not fail and it does not crash or leave. The other runners
   may do anything but write the cursor. Nothing is committed, and nobody switches the subscription off.
   */
  predicate KeepsGoing(s: Step, r: int, limit: int) {
    if s.Append? || s.Switch? then false
    else if s.Tick? then true
    else if s.r != r then !s.WritePlace? && !s.Advance?
    else !s.Fail? && !s.Crash? && !s.Quit? && !s.GiveUp? && (s.Poll? ==> s.limit == limit)
  }

  // A turn ends with the renewal.
  predicate EndsTurn(s: Step, r: int) {
    s.Extend? && s.r == r
  }

  function TurnsOf(steps: seq<Step>, r: int): nat {
    if steps == [] then 0
    else TurnsOf(steps[..|steps| - 1], r) + (if EndsTurn(steps[|steps| - 1], r) then 1 else 0)
  }

  // The batches that are left.
  function BatchesLeft(f: Filter, w: World, limit: int): nat
    requires 0 < limit
  {
    |Drain(w.log, f, w.cursor, limit)|
  }

  // What the runner holds between two calls is what the log has for it now.
  predicate PhaseIsCurrent(f: Filter, w: World, limit: int, p: Phase) {
    match p
    case Ready => true
    case Reloaded(seen) => seen == w.cursor
    case Fetched(seen, batch) => seen == w.cursor && batch == Fetch(w.log, f, seen, limit) && batch != []
    case Handled(seen, batch) => seen == w.cursor && batch == Fetch(w.log, f, seen, limit) && batch != []
    case Renewing => true
    case _ => false
  }

  // Each turn so far took one batch off the `all` that were left, as long as there were any.
  ghost predicate OnTheWay(f: Filter, w: World, r: int, limit: int, all: nat, turns: nat)
    requires 0 < limit
  {
    && w.lease.active && r in w.runners
    && PhaseIsCurrent(f, w, limit, w.runners[r].phase)
    && BatchesLeft(f, w, limit) == Max(all - turns - (if w.runners[r].phase.Renewing? then 1 else 0), 0)
  }

  lemma OthersLeaveOnTheWay(f: Filter, w: World, s: Step, r: int, limit: int, all: nat, turns: nat)
    requires 0 < limit && OnTheWay(f, w, r, limit, all, turns) && Next(f, w, s).Some?
    requires KeepsGoing(s, r, limit) && !OfRunner(s, r)
    ensures var v := Next(f, w, s).value;
            OnTheWay(f, v, r, limit, all, turns) && v.log == w.log && v.floor == w.floor
  {
    var v := Next(f, w, s).value;
    assert v.runners[r] == w.runners[r];
    assert v.cursor == w.cursor;
  }

  // A batch that was read is the first of those that are left.
  lemma OneBatchLess(log: seq<LogRow>, f: Filter, cursor: int, limit: int)
    requires 0 < limit
    ensures var batch := Fetch(log, f, cursor, limit);
            if batch == [] then |Drain(log, f, cursor, limit)| == 0
            else cursor < Last(batch) && |Drain(log, f, cursor, limit)| == 1 + |Drain(log, f, Last(batch), limit)|
  {
    FetchCovers(log, f, cursor, limit);
  }

  lemma OwnStepOnTheWay(f: Filter, w: World, s: Step, r: int, limit: int, all: nat, turns: nat)
    requires 0 < limit && OnTheWay(f, w, r, limit, all, turns) && Next(f, w, s).Some?
    requires KeepsGoing(s, r, limit) && OfRunner(s, r)
    ensures var v := Next(f, w, s).value;
            && OnTheWay(f, v, r, limit, all, turns + if s.Extend? then 1 else 0)
            && v.log == w.log && v.floor == w.floor
  {
    OneBatchLess(w.log, f, w.cursor, limit);
    var p := w.runners[r].phase;
    match s
    case Reload(_) => assert p.Ready?;
    case Poll(_, _) => assert p.Reloaded?;
    case Succeed(_) => assert p.Fetched?;
    case Advance(_) => assert p.Handled?;
    case Extend(_, _) => assert p.Renewing?;
    case _ =>
  }

  lemma {:induction false} RunStaysOnTheWay(f: Filter, w: World, steps: seq<Step>, r: int, limit: int)
    requires 0 < limit && Run(f, w, steps).Some? && forall s :: s in steps ==> KeepsGoing(s, r, limit)
    requires w.lease.active && r in w.runners && w.runners[r].phase == Ready
    ensures var v := Run(f, w, steps).value;
            OnTheWay(f, v, r, limit, BatchesLeft(f, w, limit), TurnsOf(steps, r)) && v.log == w.log
            && v.floor == w.floor
    decreases |steps|
  {
    if steps != [] {
      var init, s := steps[..|steps| - 1], steps[|steps| - 1];
      RunStaysOnTheWay(f, w, init, r, limit);
      assert s in steps;
      if OfRunner(s, r) {
        OwnStepOnTheWay(f, Run(f, w, init).value, s, r, limit, BatchesLeft(f, w, limit), TurnsOf(init, r));
      } else {
        OthersLeaveOnTheWay(f, Run(f, w, init).value, s, r, limit, BatchesLeft(f, w, limit), TurnsOf(init, r));
      }
    }
  }

  /**
   From every reachable world: an active runner that keeps taking turns, with any positive batch size, has everything
   above the floor handled after as many turns as there are batches left, however the turns are interleaved with what
   the other runners do short of writing the cursor.
   */
  lemma {:induction false} KeepingGoingCatchesUp(f: Filter, log: seq<LogRow>, clock: int, history: seq<Step>, w: World,
                                                 steps: seq<Step>, r: int, limit: int)
    requires Run(f, Fresh(log, clock), history) == Some(w) && w.lease.active && r in w.runners
    requires w.runners[r].phase == Ready
    requires 0 < limit && Run(f, w, steps).Some? && forall s :: s in steps ==> KeepsGoing(s, r, limit)
    requires BatchesLeft(f, w, limit) <= TurnsOf(steps, r)
    ensures CatchesUp(f, w, steps)
  {
    RunKeepsDeliveryInv(f, Fresh(log, clock), history);
    RunKeepsDeliveryInv(f, w, steps);
    RunStaysOnTheWay(f, w, steps, r, limit);
    var v := Run(f, w, steps).value;
    FetchCovers(v.log, f, v.cursor, limit);
    NothingLeft(f, v);
  }

  lemma {:induction false} TurnsConcat(a: seq<Step>, b: seq<Step>, r: int)
    ensures TurnsOf(a + b, r) == TurnsOf(a, r) + TurnsOf(b, r)
    decreases |b|
  {
    if b == [] {
      assert a + b == a;
    } else {
      var init := b[..|b| - 1];
      TurnsConcat(a, init, r);
      assert (a + b)[..|a + b| - 1] == a + init;
    }
  }

  lemma {:induction false} NoTurns(steps: seq<Step>, r: int)
    requires forall i :: 0 <= i < |steps| ==> !steps[i].Extend?
    ensures TurnsOf(steps, r) == 0
  {
    if steps != [] {
      NoTurns(steps[..|steps| - 1], r);
    }
  }

  lemma OneTurn(calls: seq<Step>, r: int, limit: int)
    requires calls == [Reload(r), Poll(r, limit)] || calls == [Reload(r), Poll(r, limit), Succeed(r), Advance(r)]
    ensures TurnsOf(calls + [Extend(r, 1)], r) == 1
    ensures forall s :: s in calls + [Extend(r, 1)] ==> KeepsGoing(s, r, limit) && OfRunner(s, r)
  {
    NoTurns(calls, r);
    assert (calls + [Extend(r, 1)])[..|calls|] == calls;
  }

  lemma TakeATurn(f: Filter, w: World, r: int, limit: int) returns (steps: seq<Step>, v: World)
    requires w.lease.active && r in w.runners && w.runners[r].phase == Ready && 0 < limit
    ensures Run(f, w, steps) == Some(v) && TurnsOf(steps, r) == 1
    ensures forall s :: s in steps ==> KeepsGoing(s, r, limit) && OfRunner(s, r)
    ensures v.lease.active && r in v.runners && v.runners[r].phase == Ready
  {
    steps := SmoothTurnRuns(f, w, r, w.runners[r].owner, limit, 1);
    v := SmoothTurn(f, w, r, limit, 1);
    var calls := steps[..|steps| - 1];
    assert steps == calls + [Extend(r, 1)];
    OneTurn(calls, r, limit);
  }

  /** And it can keep going: from every such world, any number of turns can be taken. */
  lemma {:induction false} CanKeepGoing(f: Filter, w: World, r: int, limit: int, turns: nat)
    returns (steps: seq<Step>, v: World)
    requires w.lease.active && r in w.runners && w.runners[r].phase == Ready && 0 < limit
    ensures Run(f, w, steps) == Some(v) && TurnsOf(steps, r) == turns
    ensures forall s :: s in steps ==> KeepsGoing(s, r, limit) && OfRunner(s, r)
    ensures v.lease.active && r in v.runners && v.runners[r].phase == Ready
    decreases turns
  {
    if turns == 0 {
      return [], w;
    }
    var first, w1 := CanKeepGoing(f, w, r, limit, turns - 1);
    var more;
    more, v := TakeATurn(f, w1, r, limit);
    TurnsConcat(first, more, r);
    RunConcat(f, w, first, more);
    steps := first + more;
  }
}
