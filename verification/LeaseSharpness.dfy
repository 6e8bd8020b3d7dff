/** Why each runner has to write before its lease runs out: every late write can move the cursor back. */
module LeaseSharpness {
  import opened Wrappers
  import opened Records
  import opened EventLog
  import opened Leases
  import opened Delivery
  import opened DeliveryBounds
  import opened LeaseHolding

  // ---------------- Held and apart, piece by piece ----------------

  lemma {:induction false} HarmlessRun(f: Filter, w: World, steps: seq<Step>)
    requires forall s :: s in steps ==> Harmless(s)
    ensures HeldRun(f, w, steps) && ApartRun(f, w, steps)
  {
    if steps != [] {
      HarmlessRun(f, w, steps[..|steps| - 1]);
      assert Harmless(steps[|steps| - 1]);
    }
  }

  lemma {:induction false} HeldConcat(f: Filter, w: World, a: seq<Step>, b: seq<Step>)
    requires Run(f, w, a).Some? && HeldRun(f, w, a) && HeldRun(f, Run(f, w, a).value, b)
    ensures HeldRun(f, w, a + b)
    decreases |b|
  {
    if b == [] {
      assert a + b == a;
    } else {
      var init := b[..|b| - 1];
      HeldConcat(f, w, a, init);
      RunConcat(f, w, a, init);
      assert (a + b)[..|a + b| - 1] == a + init;
    }
  }

  lemma {:induction false} ApartConcat(f: Filter, w: World, a: seq<Step>, b: seq<Step>)
    requires Run(f, w, a).Some? && ApartRun(f, w, a) && ApartRun(f, Run(f, w, a).value, b)
    ensures ApartRun(f, w, a + b)
    decreases |b|
  {
    if b == [] {
      assert a + b == a;
    } else {
      var init := b[..|b| - 1];
      ApartConcat(f, w, a, init);
      RunConcat(f, w, a, init);
      assert (a + b)[..|a + b| - 1] == a + init;
    }
  }

  // A held and apart run from a world to a world.
  ghost predicate Careful(f: Filter, w: World, steps: seq<Step>, v: World) {
    Run(f, w, steps) == Some(v) && HeldRun(f, w, steps) && ApartRun(f, w, steps)
  }

  lemma CarefulConcat(f: Filter, w: World, a: seq<Step>, u: World, b: seq<Step>, v: World)
    requires Careful(f, w, a, u) && Careful(f, u, b, v)
    ensures Careful(f, w, a + b, v)
  {
    RunConcat(f, w, a, b);
    HeldConcat(f, w, a, b);
    ApartConcat(f, w, a, b);
  }

  lemma CarefulOne(f: Filter, w: World, s: Step, v: World)
    requires Next(f, w, s) == Some(v) && HeldStep(w, s) && ApartStep(w, s)
    ensures Careful(f, w, [s], v)
  {
    assert [s][..0] == [];
  }

  // ---------------- A late write ----------------

  // An event that the filter lets through.
  ghost function MatchingRow(f: Filter): (row: LogRow)
    ensures Matches(f, row)
  {
    var typeId := if f.aggregateTypeId.Some? then f.aggregateTypeId.value else 1;
    var single := if f.eventTypeId.Some? then f.eventTypeId.value else 1;
    var eventTypeId := if exists t: int :: t in f.eventTypes then (var t: int :| t in f.eventTypes; t) else single;
    assert f.eventTypes != {} ==> eventTypeId in f.eventTypes;
    LogRow(1, f.aggregateKey, 1, typeId, eventTypeId, "", 1, "", "")
  }

  lemma {:induction false} UpperBound(s: set<int>) returns (b: int)
    ensures forall x :: x in s ==> x < b
    decreases |s|
  {
    b := 0;
    if x: int :| x in s {
      var rest := UpperBound(s - {x});
      b := Max(rest, x + 1);
      assert forall y :: y in s ==> y == x || y in s - {x};
    }
  }

  // An owner name that no live runner goes by.
  lemma FreeName(w: World) returns (name: string)
    ensures forall q :: q in w.runners ==> w.runners[q].owner != name
  {
    var lengths := set q | q in w.runners :: |w.runners[q].owner|;
    var n := UpperBound(lengths);
    name := seq(Max(n, 0), i => 'x');
    forall q | q in w.runners
      ensures w.runners[q].owner != name
    {
      assert |w.runners[q].owner| in lengths;
    }
  }

  // With one more matching event, a large batch ends at it.
  lemma FetchesTheNew(log: seq<LogRow>, f: Filter, cursor: int)
    requires log != [] && cursor < |log| && Matches(f, log[|log| - 1])
    ensures var batch := Fetch(log, f, cursor, |log| + 1); batch != [] && Last(batch) == |log|
  {
    SelectExact(log, f, cursor, |log|);
    assert |log| in Select(log, f, cursor, |log|);
    FetchCovers(log, f, cursor, |log| + 1);
    WholeBatch(log, f, cursor, |log| + 1);
    var last := Last(Fetch(log, f, cursor, |log| + 1));
    SelectExact(log, f, last, |log|);
    assert |log| !in Select(log, f, last, |log|);
  }

  // Time passes until the lease and what runner r was granted have run out.
  lemma Expire(f: Filter, w: World, r: int) returns (steps: seq<Step>)
    ensures Careful(f, w, steps, Late(w, r)) && forall s :: s in steps ==> !OfRunner(s, r)
    ensures !Holds(Late(w, r), r)
  {
    steps := [Switch(true), Tick(Late(w, r).clock)];
    RunChain(f, [w, w.(lease := w.lease.(active := true)), Late(w, r)], steps);
    HarmlessRun(f, w, steps);
  }

  // Another runner, under a name of its own, claims the expired lease.
  lemma ClaimLate(f: Filter, w: World, b: int, owner: string) returns (steps: seq<Step>)
    requires b !in w.runners && MayClaim(w.lease, w.clock) && forall q :: q in w.runners ==> w.runners[q].owner != owner
    ensures Careful(f, w, steps, Claims(Began(w, b, owner), b, 1)) && forall s :: s in steps ==> OfRunner(s, b)
  {
    var w1 := Began(w, b, owner);
    var register, take := Register(b, owner, w1.start), Take(b, 1);
    CarefulOne(f, w, register, w1);
    CarefulOne(f, w1, take, Claims(w1, b, 1));
    CarefulConcat(f, w, [register], w1, [take], Claims(w1, b, 1));
    steps := [register] + [take];
  }

  // A runner that holds the lease handles its batch and writes.
  lemma WriteHeld(f: Filter, w: World, b: int) returns (steps: seq<Step>, v: World)
    requires b in w.runners && w.runners[b].phase.Fetched? && Holds(w, b)
    requires w.runners[b].phase.batch != [] && w.runners[b].phase.seen < Last(w.runners[b].phase.batch)
    ensures Careful(f, w, steps, v) && forall s :: s in steps ==> OfRunner(s, b)
    ensures v.cursor == Last(w.runners[b].phase.batch) && v.granted == w.granted && v.clock == w.clock && steps != []
    ensures forall q :: q in w.runners && q != b ==> q in v.runners && v.runners[q] == w.runners[q]
  {
    var p := w.runners[b].phase;
    var w1 := To(w.(acked := w.acked + Ids(p.batch)), b, Handled(p.seen, p.batch));
    v := To(w1.(cursor := Last(p.batch)), b, Renewing);
    CarefulOne(f, w, Succeed(b), w1);
    CarefulOne(f, w1, Advance(b), v);
    CarefulConcat(f, w, [Succeed(b)], w1, [Advance(b)], v);
    steps := [Succeed(b)] + [Advance(b)];
  }

  // The log with matching events added, so that its length is above n.
  ghost function GrownPast(f: Filter, w: World, n: int): (v: World)
    ensures w.log <= v.log && v == w.(log := v.log) && n < |v.log|
    ensures |w.log| + 2 <= |v.log| && n + 2 <= |v.log|
    ensures Matches(f, v.log[|v.log| - 1]) && Matches(f, v.log[|v.log| - 2])
  {
    w.(log := w.log + seq(Max(0, n - |w.log|) + 2, _ => MatchingRow(f)))
  }

  // New events come, runner r's grant runs out, and another runner claims, fetches and writes past n.
  lemma Overtake(f: Filter, w: World, r: int, n: int) returns (steps: seq<Step>, v: World)
    requires r in w.runners
    ensures Careful(f, w, steps, v) && forall s :: s in steps ==> !OfRunner(s, r)
    ensures n < v.cursor && r in v.runners && v.runners[r] == w.runners[r] && !Holds(v, r)
  {
    var w1 := GrownPast(f, w, Max(n, w.cursor));
    var grow := [Append(w1.log[|w.log|..])];
    RunChain(f, [w, w1], grow);
    HarmlessRun(f, w, grow);
    var wait := Expire(f, w1, r);
    CarefulConcat(f, w, grow, w1, wait, Late(w1, r));
    var rest;
    rest, v := TakeOver(f, Late(w1, r), r);
    CarefulConcat(f, w, grow + wait, Late(w1, r), rest, v);
    steps := grow + wait + rest;
  }

  // The world after another runner has claimed the expired lease and fetched everything.
  function ReadBy(f: Filter, w: World, b: int, owner: string): World {
    To(Claims(Began(w, b, owner), b, 1), b, Fetched(w.cursor, Fetch(w.log, f, w.cursor, |w.log| + 1)))
  }

  lemma ClaimAndRead(f: Filter, w: World, b: int, owner: string) returns (steps: seq<Step>)
    requires b !in w.runners && w.lease.active && MayClaim(w.lease, w.clock)
    requires forall q :: q in w.runners ==> w.runners[q].owner != owner
    requires Fetch(w.log, f, w.cursor, |w.log| + 1) != []
    ensures Careful(f, w, steps, ReadBy(f, w, b, owner)) && forall s :: s in steps ==> OfRunner(s, b)
  {
    var claim := ClaimLate(f, w, b, owner);
    var w1 := Claims(Began(w, b, owner), b, 1);
    var read, v := ReadAll(f, w1, b, |w.log| + 1);
    HarmlessRun(f, w1, read);
    CarefulConcat(f, w, claim, w1, read, v);
    steps := claim + read;
  }

  // Another runner, under a free name, gets the lease that is free and writes up to the end of the log.
  lemma TakeOver(f: Filter, w: World, r: int) returns (steps: seq<Step>, v: World)
    requires r in w.runners && w.lease.active && MayClaim(w.lease, w.clock)
    requires w.log != [] && w.cursor < |w.log| && Matches(f, w.log[|w.log| - 1])
    ensures Careful(f, w, steps, v) && forall s :: s in steps ==> !OfRunner(s, r)
    ensures v.cursor == |w.log| && SameFor(w, v, r) && v.clock == w.clock
  {
    var b := UpperBound(w.runners.Keys);
    assert b !in w.runners && b != r;
    var owner := FreeName(w);
    FetchesTheNew(w.log, f, w.cursor);
    var first := ClaimAndRead(f, w, b, owner);
    var w1 := ReadBy(f, w, b, owner);
    var write;
    write, v := WriteHeld(f, w1, b);
    CarefulConcat(f, w, first, w1, write, v);
    steps := first + write;
  }

  // The write of the cursor that a runner in this phase is about to make.
  function WriteOf(r: int, p: Phase): Step {
    if p.Placing? then WritePlace(r) else Advance(r)
  }

  /**
   The continuation in which runner r's next write is late and lowers the cursor. Everybody else keeps to the
   discipline, and r itself does nothing before that write but hear from its handler.
   */
  ghost predicate LateWriteLowers(f: Filter, w: World, r: int, more: seq<Step>) {
    && Run(f, w, more).Some? && HeldRun(f, w, more) && ApartRun(f, w, more)
    && (forall s :: s in more && OfRunner(s, r) ==> s == Succeed(r))
    && var v := Run(f, w, more).value;
    && r in v.runners && !Holds(v, r)
    && var s := WriteOf(r, v.runners[r].phase);
    && WritesCursor(v, s) && Next(f, v, s).Some? && Next(f, v, s).value.cursor < v.cursor
  }

  // Where the write of a runner in this phase puts the cursor.
  function Target(p: Phase): int
    requires p.Placing? || (p.Handled? && p.batch != [])
  {
    if p.Placing? then p.target else Last(p.batch)
  }

  lemma WritesLate(f: Filter, w: World, r: int) returns (more: seq<Step>)
    requires r in w.runners && PhaseOk(f, w, w.runners[r].phase)
    requires w.runners[r].phase.Placing? || w.runners[r].phase.Handled?
    ensures LateWriteLowers(f, w, r, more) && forall s :: s in more ==> !OfRunner(s, r)
  {
    var v;
    more, v := Overtake(f, w, r, Target(w.runners[r].phase));
    assert Careful(f, w, more, v);
  }

  /**
   From every reachable world with a runner between its fetch and its write, or about to write the start that it
   computed, there is a continuation, held and with apart names for everybody else, in which that runner's write comes
   late and moves the cursor back.
   */
  lemma {:induction false} LateWriteCanGoBack(f: Filter, log: seq<LogRow>, clock: int, steps: seq<Step>, r: int)
    requires Run(f, Fresh(log, clock), steps).Some?
    requires var w := Run(f, Fresh(log, clock), steps).value;
             && r in w.runners
             && (w.runners[r].phase.Placing? || w.runners[r].phase.Fetched? || w.runners[r].phase.Handled?)
    ensures exists more :: LateWriteLowers(f, Run(f, Fresh(log, clock), steps).value, r, more)
  {
    RunKeepsDeliveryInv(f, Fresh(log, clock), steps);
    var w := Run(f, Fresh(log, clock), steps).value;
    assert PhaseOk(f, w, w.runners[r].phase);
    if w.runners[r].phase.Fetched? {
      var more := FetchedLate(f, w, r);
    } else {
      var more := WritesLate(f, w, r);
    }
  }

  lemma FetchedLate(f: Filter, w: World, r: int) returns (more: seq<Step>)
    requires r in w.runners && w.runners[r].phase.Fetched? && DeliveryInv(f, w)
    ensures LateWriteLowers(f, w, r, more)
  {
    var p := w.runners[r].phase;
    var w1 := To(w.(acked := w.acked + Ids(p.batch)), r, Handled(p.seen, p.batch));
    RunChain(f, [w, w1], [Succeed(r)]);
    HarmlessRun(f, w, [Succeed(r)]);
    RunKeepsDeliveryInv(f, w, [Succeed(r)]);
    assert PhaseOk(f, w1, w1.runners[r].phase);
    var rest := WritesLate(f, w1, r);
    CarefulConcat(f, w, [Succeed(r)], w1, rest, Run(f, w1, rest).value);
    more := [Succeed(r)] + rest;
  }

  // After i steps the cursor is higher than at the end.
  predicate GoesBack(f: Filter, w: World, steps: seq<Step>, i: nat) {
    && i < |steps| && Run(f, w, steps).Some? && Run(f, w, steps[..i]).Some?
    && Run(f, w, steps).value.cursor < Run(f, w, steps[..i]).value.cursor
  }

  // A runner's first batch, from a fresh subscription.
  lemma FirstFetch(f: Filter, w: World, r: int, owner: string, lease: int, limit: int)
    returns (steps: seq<Step>, v: World)
    requires r !in w.runners && MayClaim(w.lease, w.clock) && 0 < limit && Fetch(w.log, f, w.cursor, limit) != []
    ensures Run(f, w, steps) == Some(v) && r in v.runners
    ensures v.runners[r].phase == Fetched(w.cursor, Fetch(w.log, f, w.cursor, limit))
  {
    var w1 := Began(w, r, owner);
    var w2 := Claims(w1, r, lease);
    var claim := [Register(r, owner, w1.start), Take(r, lease)];
    RunChain(f, [w, w1, w2], claim);
    var read;
    read, v := ReadAll(f, w2, r, limit);
    RunConcat(f, w, claim, read);
    steps := claim + read;
  }

  lemma GoesBackLater(f: Filter, w: World, a: seq<Step>, u: World, more: seq<Step>, i: nat)
    requires Run(f, w, a) == Some(u) && GoesBack(f, u, more, i)
    ensures GoesBack(f, w, a + more, |a| + i)
  {
    RunConcat(f, w, a, more);
    RunConcat(f, w, a, more[..i]);
    assert (a + more)[..|a| + i] == a + more[..i];
  }

  lemma WritesLast(f: Filter, w: World, more: seq<Step>, s: Step)
    requires Run(f, w, more).Some? && Next(f, Run(f, w, more).value, s).Some?
    requires Next(f, Run(f, w, more).value, s).value.cursor < Run(f, w, more).value.cursor
    ensures GoesBack(f, w, more + [s], |more|)
  {
    assert (more + [s])[..|more|] == more;
  }

  /** So the cursor of a fresh subscription can go back, whatever its filter, by one late write alone. */
  lemma StaleRunnerMovesCursorBack(f: Filter)
    ensures exists log, steps, i :: GoesBack(f, Fresh(log, 0), steps, i)
  {
    var log := [MatchingRow(f)];
    FetchesTheNew(log, f, 0);
    var start, w := FirstFetch(f, Fresh(log, 0), 1, "a", 10, 2);
    LateWriteCanGoBack(f, log, 0, start, 1);
    var more :| LateWriteLowers(f, w, 1, more);
    var s := WriteOf(1, Run(f, w, more).value.runners[1].phase);
    WritesLast(f, w, more, s);
    GoesBackLater(f, Fresh(log, 0), start, w, more + [s], |more|);
  }
}
