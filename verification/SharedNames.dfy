/** Why no claim may be granted under the name of a runner at work: each one that is lets the cursor go back. */
module SharedNames {
  import opened Wrappers
  import opened Records
  import opened EventLog
  import opened Leases
  import opened Delivery
  import opened DeliveryBounds
  import opened LeaseHolding
  import opened LeaseSharpness

  // A continuation within both disciplines in which the cursor goes back.
  ghost predicate Lowers(f: Filter, w: World, more: seq<Step>, i: nat) {
    HeldRun(f, w, more) && ApartRun(f, w, more) && GoesBack(f, w, more, i)
  }

  ghost predicate CanLower(f: Filter, w: World) {
    exists more, i :: Lowers(f, w, more, i)
  }

  // Runner b has just been granted its claim under the name that runner a is still at work under.
  ghost predicate ShareName(w: World, a: int, b: int) {
    && a != b && a in w.runners && b in w.runners && w.runners[a].owner == w.runners[b].owner
    && !w.runners[a].phase.Upserted? && w.runners[b].phase == Claimed
    && w.lease.owner == Some(w.runners[b].owner) && Holds(w, b)
  }

  // A leaves, and its release frees the lease of that name. The log has grown, and a newcomer names the beginning.
  ghost function Freed(f: Filter, w: World, a: int): World {
    var left := Gone(w.(log := GrownPast(f, w, w.cursor).log, lease := LeaseRecord(true, None, None)), a);
    Began(left, UpperId(left), "")
  }

  ghost function UpperId(w: World): (c: int)
    ensures c !in w.runners
  {
    UpperIdExists(w);
    var c :| c !in w.runners; c
  }

  lemma UpperIdExists(w: World)
    ensures exists c :: c !in w.runners
  {
    var c := UpperBound(w.runners.Keys);
    assert c !in w.runners;
  }

  lemma GrowsLog(f: Filter, w: World) returns (steps: seq<Step>, v: World)
    ensures Careful(f, w, steps, v)
    ensures v == w.(lease := w.lease.(active := true), log := GrownPast(f, w, w.cursor).log)
  {
    var w1 := w.(lease := w.lease.(active := true));
    v := w1.(log := GrownPast(f, w, w.cursor).log);
    steps := [Switch(true), Append(v.log[|w.log|..])];
    RunChain(f, [w, w1, v], steps);
    HarmlessRun(f, w, steps);
  }

  lemma Leaves(f: Filter, w: World, a: int) returns (steps: seq<Step>, v: World)
    requires a in w.runners && !w.runners[a].phase.Upserted? && w.lease.owner == Some(w.runners[a].owner)
    ensures Careful(f, w, steps, v) && v == Gone(w.(lease := LeaseRecord(w.lease.active, None, None)), a)
  {
    var w1 := To(w, a, Leaving);
    v := Gone(w.(lease := LeaseRecord(w.lease.active, None, None)), a);
    assert v.runners == w1.runners - {a};
    steps := [Quit(a), GiveUp(a)];
    RunChain(f, [w, w1, v], steps);
    HarmlessRun(f, w, steps);
  }

  lemma Enters(f: Filter, w: World, c: int) returns (steps: seq<Step>)
    requires c !in w.runners
    ensures Careful(f, w, steps, Began(w, c, ""))
  {
    steps := [Register(c, "", Start(Beginning, 0, ZERO_TIME))];
    RunChain(f, [w, Began(w, c, "")], steps);
    HarmlessRun(f, w, steps);
  }

  lemma FreesTheLease(f: Filter, w: World, a: int, b: int) returns (steps: seq<Step>)
    requires ShareName(w, a, b)
    ensures Careful(f, w, steps, Freed(f, w, a))
  {
    var grow, w1 := GrowsLog(f, w);
    var leave, w2 := Leaves(f, w1, a);
    var enter := Enters(f, w2, UpperId(w2));
    CarefulConcat(f, w, grow, w1, leave, w2);
    CarefulConcat(f, w, grow + leave, w2, enter, Freed(f, w, a));
    steps := grow + leave + enter;
  }

  // Of two matching events at the end of the log, a batch of one does not reach the second.
  lemma FetchesOne(log: seq<LogRow>, f: Filter, cursor: int)
    requires 2 <= |log| && cursor < |log| - 1 && Matches(f, log[|log| - 2])
    ensures var batch := Fetch(log, f, cursor, 1); batch != [] && cursor < Last(batch) < |log|
  {
    SelectExact(log, f, cursor, |log|);
    var all := Select(log, f, cursor, |log|);
    assert |log| - 1 in all;
    var i :| 0 <= i < |all| && all[i] == |log| - 1;
    assert all[0] <= all[i] && all[0] in all;
  }

  lemma LowersLater(f: Filter, w: World, a: seq<Step>, u: World, more: seq<Step>, i: nat)
    requires Careful(f, w, a, u) && Lowers(f, u, more, i)
    ensures Lowers(f, w, a + more, |a| + i)
  {
    CarefulConcat(f, w, a, u, more, Run(f, u, more).value);
    GoesBackLater(f, w, a, u, more, i);
  }

  // Another runner claims the free lease and writes up to the end of the log; then b, which holds a grant, writes less.
  lemma WriteInTurn(f: Filter, w: World, b: int) returns (more: seq<Step>, i: nat)
    requires b in w.runners && w.runners[b].phase.Fetched? && Holds(w, b)
    requires var p := w.runners[b].phase; p.batch != [] && p.seen < Last(p.batch) < |w.log|
    requires w.lease.active && MayClaim(w.lease, w.clock)
    requires w.log != [] && w.cursor < |w.log| && Matches(f, w.log[|w.log| - 1])
    ensures Lowers(f, w, more, i)
  {
    var over, w1 := TakeOver(f, w, b);
    var write, w2 := WriteHeld(f, w1, b);
    CarefulConcat(f, w, over, w1, write, w2);
    more, i := over + write, |over|;
    assert more[..i] == over;
  }

  // From a free lease, with two new events, b reads the first and another runner writes the second before it does.
  lemma ReadAndWrite(f: Filter, w: World, b: int)
    requires b in w.runners && w.runners[b].phase == Claimed && Holds(w, b)
    requires w.lease == LeaseRecord(true, None, None) && w.start.kind == Beginning
    requires 2 <= |w.log| && w.cursor < |w.log| - 1
    requires Matches(f, w.log[|w.log| - 1]) && Matches(f, w.log[|w.log| - 2])
    ensures CanLower(f, w)
  {
    FetchesOne(w.log, f, w.cursor);
    var read, w1 := ReadAll(f, w, b, 1);
    HarmlessRun(f, w, read);
    var more, i := WriteInTurn(f, w1, b);
    LowersLater(f, w, read, w1, more, i);
  }

  /** From every world with such a runner b, the cursor can go back within both disciplines. */
  lemma SharedNameLowers(f: Filter, w: World, a: int, b: int)
    requires ShareName(w, a, b)
    ensures CanLower(f, w)
  {
    var free := FreesTheLease(f, w, a, b);
    var w1 := Freed(f, w, a);
    ReadAndWrite(f, w1, b);
    var more, i :| Lowers(f, w1, more, i);
    LowersLater(f, w, free, w1, more, i);
  }

  /**
   The condition on names is exact. After any run within both disciplines, a step is a claim granted under the name of a
   runner at work if and only if, after it, the cursor can go back although every later step keeps both disciplines.
   */
  lemma {:induction false} NamesExactly(f: Filter, log: seq<LogRow>, clock: int, steps: seq<Step>, s: Step)
    requires Run(f, Fresh(log, clock), steps).Some?
    requires HeldRun(f, Fresh(log, clock), steps) && ApartRun(f, Fresh(log, clock), steps)
    requires var w := Run(f, Fresh(log, clock), steps).value; HeldStep(w, s) && Next(f, w, s).Some?
    requires s.Take? ==> 0 <= s.lease
    ensures var w := Run(f, Fresh(log, clock), steps).value; ApartStep(w, s) <==> !CanLower(f, Next(f, w, s).value)
  {
    var w := Run(f, Fresh(log, clock), steps).value;
    RunKeepsHolderInv(f, Fresh(log, clock), steps);
    if ApartStep(w, s) {
      StepKeepsHolderInv(f, w, s);
      NeverLowers(f, Next(f, w, s).value);
    } else {
      GrantedUnderName(f, w, s);
    }
  }

  lemma NeverLowers(f: Filter, w: World)
    requires HolderInv(w)
    ensures !CanLower(f, w)
  {
    forall more, i: nat | HeldRun(f, w, more) && ApartRun(f, w, more) && i < |more| && Run(f, w, more).Some?
      ensures !Lowers(f, w, more, i)
    {
      HeldPrefix(f, w, more, i);
    }
  }

  lemma GrantedUnderName(f: Filter, w: World, s: Step)
    requires !ApartStep(w, s) && Next(f, w, s).Some? && (s.Take? ==> 0 <= s.lease)
    ensures CanLower(f, Next(f, w, s).value)
  {
    var a :| WorksAs(w, a, w.runners[s.r].owner) && a != s.r;
    var v := Next(f, w, s).value;
    assert ShareName(v, a, s.r);
    SharedNameLowers(f, v, a, s.r);
  }

  // ---------------- Both runners at work and holding the lease ----------------

  lemma HeldOne(f: Filter, w: World, s: Step, v: World)
    requires Next(f, w, s) == Some(v) && HeldStep(w, s)
    ensures Run(f, w, [s]) == Some(v) && HeldRun(f, w, [s])
  {
    assert [s][..0] == [];
  }

  // A held run from a world to a world, whatever the names.
  ghost predicate Held(f: Filter, w: World, steps: seq<Step>, v: World) {
    Run(f, w, steps) == Some(v) && HeldRun(f, w, steps)
  }

  lemma HeldThen(f: Filter, w: World, a: seq<Step>, u: World, b: seq<Step>, v: World)
    requires Held(f, w, a, u) && Held(f, u, b, v)
    ensures Held(f, w, a + b, v)
  {
    RunConcat(f, w, a, b);
    HeldConcat(f, w, a, b);
  }

  // A runner registers and claims, under any name.
  lemma Starts(f: Filter, w: World, r: int, owner: string, lease: int) returns (steps: seq<Step>)
    requires r !in w.runners && MayClaim(w.lease, w.clock)
    ensures Held(f, w, steps, Claims(Began(w, r, owner), r, lease))
  {
    var w1 := Began(w, r, owner);
    HeldOne(f, w, Register(r, owner, w1.start), w1);
    HeldOne(f, w1, Take(r, lease), Claims(w1, r, lease));
    HeldThen(f, w, [Register(r, owner, w1.start)], w1, [Take(r, lease)], Claims(w1, r, lease));
    steps := [Register(r, owner, w1.start)] + [Take(r, lease)];
  }

  // A runner that finds nothing renews under its name, whoever claimed the lease under that name.
  lemma RenewsIdle(f: Filter, w: World, r: int, lease: int) returns (steps: seq<Step>, v: World)
    requires r in w.runners && w.runners[r].phase == Renewing && MayRenew(w.lease, w.runners[r].owner)
    ensures Held(f, w, steps, v)
    ensures v == To(w.(lease := w.lease.(expires := Some(w.clock + lease)),
                       granted := w.granted[r := w.clock + lease]), r, Ready)
  {
    v := To(w.(lease := w.lease.(expires := Some(w.clock + lease)), granted := w.granted[r := w.clock + lease]), r,
            Ready);
    HeldOne(f, w, Extend(r, lease), v);
    steps := [Extend(r, lease)];
  }

  lemma FetchesReady(f: Filter, w: World, r: int, limit: int) returns (steps: seq<Step>, v: World)
    requires r in w.runners && w.runners[r].phase == Ready && w.lease.active && 0 < limit
    requires Fetch(w.log, f, w.cursor, limit) != []
    ensures Held(f, w, steps, v) && v == To(w, r, Fetched(w.cursor, Fetch(w.log, f, w.cursor, limit)))
  {
    var w1 := To(w, r, Reloaded(w.cursor));
    v := To(w1, r, Fetched(w.cursor, Fetch(w.log, f, w.cursor, limit)));
    RunChain(f, [w, w1, v], [Reload(r), Poll(r, limit)]);
    HarmlessRun(f, w, [Reload(r), Poll(r, limit)]);
    steps := [Reload(r), Poll(r, limit)];
  }

  lemma Reads(f: Filter, w: World, r: int, limit: int) returns (steps: seq<Step>, v: World)
    requires r in w.runners && w.runners[r].phase == Claimed && w.lease.active && w.start.kind == Beginning && 0 < limit
    ensures Held(f, w, steps, v)
    ensures var batch := Fetch(w.log, f, w.cursor, limit);
            v == To(w, r, if batch == [] then Renewing else Fetched(w.cursor, batch))
  {
    steps, v := ReadAll(f, w, r, limit);
    HarmlessRun(f, w, steps);
  }

  // Runner 1 claims, outlives its lease and, after runner 2 claimed under the same name, has its renewal accepted.
  lemma BothGranted(f: Filter) returns (steps: seq<Step>, v: World)
    ensures Held(f, Fresh([], 0), steps, v)
    ensures v.log == [] && v.cursor == 0 && v.lease.active && v.start.kind == Beginning && v.clock == 20
    ensures v.runners == map[1 := Runner("h", Ready), 2 := Runner("h", Claimed)] && v.granted == map[1 := 35, 2 := 35]
  {
    var w0 := Fresh([], 0);
    var s1 := Starts(f, w0, 1, "h", 15);
    var w1 := Claims(Began(w0, 1, "h"), 1, 15);
    var w2 := w1.(clock := 20);
    HeldOne(f, w1, Tick(20), w2);
    HeldThen(f, w0, s1, w1, [Tick(20)], w2);
    var s2 := Starts(f, w2, 2, "h", 15);
    var w3 := Claims(Began(w2, 2, "h"), 2, 15);
    HeldThen(f, w0, s1 + [Tick(20)], w2, s2, w3);
    assert Fetch([], f, 0, 1) == [];
    var s3, w4 := Reads(f, w3, 1, 1);
    HeldThen(f, w0, s1 + [Tick(20)] + s2, w3, s3, w4);
    var s4;
    s4, v := RenewsIdle(f, w4, 1, 15);
    HeldThen(f, w0, s1 + [Tick(20)] + s2 + s3, w4, s4, v);
    steps := s1 + [Tick(20)] + s2 + s3 + s4;
    assert v.runners == map[1 := Runner("h", Ready), 2 := Runner("h", Claimed)];
    assert v.granted == map[1 := 35, 2 := 35];
  }

  lemma FetchesTwo(f: Filter, row: LogRow)
    requires Matches(f, row)
    ensures Fetch([row, row], f, 0, 1) == [1] && Fetch([row, row], f, 0, 2) == [1, 2]
  {
    assert Select([row, row], f, 0, 0) == [];
    assert Select([row, row], f, 0, 1) == [1];
    assert Select([row, row], f, 0, 2) == [1, 2];
  }

  // Both hold grants. Runner 1 has fetched the first of two events, runner 2 both.
  lemma BothFetched(f: Filter) returns (steps: seq<Step>, v: World)
    ensures Held(f, Fresh([], 0), steps, v)
    ensures v.runners == map[1 := Runner("h", Fetched(0, [1])), 2 := Runner("h", Fetched(0, [1, 2]))]
    ensures Holds(v, 1) && Holds(v, 2)
  {
    var row := MatchingRow(f);
    var start, w0 := BothGranted(f);
    var w1 := w0.(log := w0.log + [row, row]);
    assert w1.log == [row, row];
    HeldOne(f, w0, Append([row, row]), w1);
    HeldThen(f, Fresh([], 0), start, w0, [Append([row, row])], w1);
    FetchesTwo(f, row);
    var s1, w2 := FetchesReady(f, w1, 1, 1);
    HeldThen(f, Fresh([], 0), start + [Append([row, row])], w1, s1, w2);
    var s2;
    s2, v := Reads(f, w2, 2, 2);
    HeldThen(f, Fresh([], 0), start + [Append([row, row])] + s1, w2, s2, v);
    steps := start + [Append([row, row])] + s1 + s2;
    assert v.runners == map[1 := Runner("h", Fetched(0, [1])), 2 := Runner("h", Fetched(0, [1, 2]))];
  }

  lemma HeldWrite(f: Filter, w: World, r: int) returns (steps: seq<Step>, v: World)
    requires r in w.runners && w.runners[r].phase.Fetched? && Holds(w, r)
    requires w.runners[r].phase.batch != [] && w.runners[r].phase.seen < Last(w.runners[r].phase.batch)
    ensures Held(f, w, steps, v) && steps != []
    ensures v.cursor == Last(w.runners[r].phase.batch) && v.granted == w.granted && v.clock == w.clock
    ensures forall q :: q in w.runners && q != r ==> q in v.runners && v.runners[q] == w.runners[q]
  {
    steps, v := WriteHeld(f, w, r);
  }

  /**
   With one owner name for two runners, which is what runners in one process get by default, both hold the lease at one
   time, and the cursor goes back although each writes before its own last granted expiry.
   */
  lemma SharedOwnerMovesCursorBack(f: Filter)
    ensures exists steps, i, a, b ::
              && HeldRun(f, Fresh([], 0), steps) && GoesBack(f, Fresh([], 0), steps, i)
              && a != b && Holds(Run(f, Fresh([], 0), steps).value, a) && Holds(Run(f, Fresh([], 0), steps).value, b)
  {
    var start, w := BothFetched(f);
    var s2, w1 := HeldWrite(f, w, 2);
    HeldThen(f, Fresh([], 0), start, w, s2, w1);
    var s1, w2 := HeldWrite(f, w1, 1);
    HeldThen(f, Fresh([], 0), start + s2, w1, s1, w2);
    var steps, i := start + s2 + s1, |start + s2|;
    assert steps[..i] == start + s2;
    assert Holds(w2, 1) && Holds(w2, 2) && w2 == Run(f, Fresh([], 0), steps).value;
    assert GoesBack(f, Fresh([], 0), steps, i);
  }
}
