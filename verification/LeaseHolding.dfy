/**
 What the lease buys: when no claim is granted under the owner name of a runner that is still at work and each runner
 writes the cursor only while its own lease lasts, the cursor never goes back. Each of the two conditions is needed.
 */
module LeaseHolding {
  import opened Wrappers
  import opened Records
  import opened Leases
  import opened Delivery
  import opened DeliveryBounds

  predicate WritesCursor(w: World, s: Step) {
    || (s.WritePlace? && s.r in w.runners && w.runners[s.r].phase.Placing?)
    || (s.Advance? && s.r in w.runners && w.runners[s.r].phase.Handled?)
  }

  // The runner's last grant has not run out.
  predicate Holds(w: World, r: int) {
    r in w.granted && w.clock <= w.granted[r]
  }

  predicate HeldStep(w: World, s: Step) {
    WritesCursor(w, s) ==> Holds(w, s.r)
  }

  /** The discipline that the code leaves to timing: no cursor write after one's own last granted expiry. */
  predicate HeldRun(f: Filter, w: World, steps: seq<Step>) {
    steps == [] ||
    (var init := steps[..|steps| - 1];
     HeldRun(f, w, init) && (Run(f, w, init).Some? ==> HeldStep(Run(f, w, init).value, steps[|steps| - 1])))
  }

  // The step is a claim that is granted.
  predicate IsGranted(w: World, s: Step) {
    s.Take? && s.r in w.runners && w.runners[s.r].phase.Upserted? && MayClaim(w.lease, w.clock)
  }

  // Runner q has been granted a claim under this name, and has not left yet.
  predicate WorksAs(w: World, q: int, owner: string) {
    q in w.runners && !w.runners[q].phase.Upserted? && w.runners[q].owner == owner
  }

  ghost predicate ApartStep(w: World, s: Step) {
    IsGranted(w, s) ==> forall q :: WorksAs(w, q, w.runners[s.r].owner) ==> q == s.r
  }

  /**
   The discipline that the code leaves to its callers: no claim is granted under the name of a runner that is still at
   work. A runner that starts under such a name and is refused, as the lease sees to while it lasts, is within it.
   */
  ghost predicate ApartRun(f: Filter, w: World, steps: seq<Step>) {
    steps == [] ||
    (var init := steps[..|steps| - 1];
     ApartRun(f, w, init) && (Run(f, w, init).Some? ==> ApartStep(Run(f, w, init).value, steps[|steps| - 1])))
  }

  // What the phase remembers of the cursor is still what is stored.
  predicate Current(p: Phase, cursor: int) {
    match p
    case Loaded(seen, _) => seen == cursor
    case Placing(target) => cursor == 0 <= target
    case Reloaded(seen) => seen == cursor
    case Fetched(seen, batch) => seen == cursor
    case Handled(seen, batch) => seen == cursor
    case _ => true
  }

  ghost predicate Apart(w: World) {
    forall a, b :: a in w.runners && WorksAs(w, a, w.runners[a].owner) && WorksAs(w, b, w.runners[a].owner) ==> a == b
  }

  // Exactly the runners between a granted claim and their release carry a grant.
  ghost predicate GrantsLive(w: World) {
    forall r :: r in w.granted <==> r in w.runners && !w.runners[r].phase.Upserted?
  }

  ghost predicate GrantsStand(w: World) {
    forall r :: r in w.granted && r in w.runners && w.clock <= w.granted[r] ==>
      w.lease.owner == Some(w.runners[r].owner) && w.lease.expires == Some(w.granted[r])
  }

  ghost predicate OwnerCurrent(w: World) {
    forall r :: r in w.granted && r in w.runners && w.lease.owner == Some(w.runners[r].owner) ==>
      Current(w.runners[r].phase, w.cursor)
  }

  ghost predicate GrantInv(w: World) {
    Apart(w) && GrantsLive(w) && GrantsStand(w)
  }

  ghost predicate HolderInv(w: World) {
    GrantInv(w) && OwnerCurrent(w)
  }

  // Nobody else is at work under the name of a runner that carries a grant.
  lemma NameIsOwn(w: World, q: int, r: int)
    requires GrantInv(w) && q in w.granted && r in w.runners && q != r
    ensures WorksAs(w, q, w.runners[q].owner) && !WorksAs(w, r, w.runners[q].owner)
  {
    assert WorksAs(w, q, w.runners[q].owner);
  }

  predicate SameFor(w: World, v: World, q: int) {
    && (q in w.runners <==> q in v.runners)
    && (q in w.runners ==> v.runners[q] == w.runners[q])
    && (q in w.granted <==> q in v.granted)
    && (q in w.granted ==> v.granted[q] == w.granted[q])
  }

  lemma OthersUntouched(f: Filter, w: World, s: Step, q: int)
    requires Next(f, w, s).Some? && !OfRunner(s, q)
    ensures SameFor(w, Next(f, w, s).value, q)
  {
  }

  lemma KeepsGrantLive(f: Filter, w: World, s: Step, q: int)
    requires GrantsLive(w) && Next(f, w, s).Some?
    ensures var v := Next(f, w, s).value; q in v.granted <==> q in v.runners && !v.runners[q].phase.Upserted?
  {
    if !OfRunner(s, q) {
      OthersUntouched(f, w, s, q);
    }
  }

  // Who is at work after a step was at work before it under the same name, or has just been granted its claim.
  lemma WorkedBefore(f: Filter, w: World, s: Step, q: int)
    requires Next(f, w, s).Some? && q in Next(f, w, s).value.runners
    requires !Next(f, w, s).value.runners[q].phase.Upserted?
    ensures q in w.runners && Next(f, w, s).value.runners[q].owner == w.runners[q].owner
    ensures WorksAs(w, q, w.runners[q].owner) || (IsGranted(w, s) && s.r == q)
  {
  }

  lemma KeepsApart(f: Filter, w: World, s: Step)
    requires Apart(w) && ApartStep(w, s) && Next(f, w, s).Some?
    ensures Apart(Next(f, w, s).value)
  {
    var v := Next(f, w, s).value;
    forall a, b | a in v.runners && WorksAs(v, a, v.runners[a].owner) && WorksAs(v, b, v.runners[a].owner)
      ensures a == b
    {
      WorkedBefore(f, w, s, a);
      WorkedBefore(f, w, s, b);
    }
  }

  lemma OwnGrantStands(f: Filter, w: World, s: Step)
    requires GrantInv(w) && Next(f, w, s).Some? && !s.Append? && !s.Tick? && !s.Switch?
    requires var v := Next(f, w, s).value; s.r in v.granted && s.r in v.runners && v.clock <= v.granted[s.r]
    ensures var v := Next(f, w, s).value;
            v.lease.owner == Some(v.runners[s.r].owner) && v.lease.expires == Some(v.granted[s.r])
  {
  }

  lemma OtherGrantStands(f: Filter, w: World, s: Step, q: int)
    requires GrantInv(w) && ApartStep(w, s) && Next(f, w, s).Some? && !OfRunner(s, q)
    requires var v := Next(f, w, s).value; q in v.granted && q in v.runners && v.clock <= v.granted[q]
    ensures var v := Next(f, w, s).value;
            v.lease.owner == Some(v.runners[q].owner) && v.lease.expires == Some(v.granted[q])
  {
    OthersUntouched(f, w, s, q);
    assert w.lease.owner == Some(w.runners[q].owner) && w.lease.expires == Some(w.granted[q]);
    if !s.Append? && !s.Tick? && !s.Switch? && s.r in w.runners {
      NameIsOwn(w, q, s.r);
    }
  }

  lemma KeepsGrants(f: Filter, w: World, s: Step)
    requires GrantInv(w) && ApartStep(w, s) && Next(f, w, s).Some?
    ensures GrantInv(Next(f, w, s).value)
  {
    var v := Next(f, w, s).value;
    KeepsApart(f, w, s);
    forall q
      ensures q in v.granted <==> q in v.runners && !v.runners[q].phase.Upserted?
    {
      KeepsGrantLive(f, w, s, q);
    }
    forall q | q in v.granted && q in v.runners && v.clock <= v.granted[q]
      ensures v.lease.owner == Some(v.runners[q].owner) && v.lease.expires == Some(v.granted[q])
    {
      if OfRunner(s, q) {
        OwnGrantStands(f, w, s);
      } else {
        OtherGrantStands(f, w, s, q);
      }
    }
  }

  lemma WriterCurrent(f: Filter, w: World, s: Step)
    requires HolderInv(w) && HeldStep(w, s) && WritesCursor(w, s) && Next(f, w, s).Some?
    ensures w.lease.owner == Some(w.runners[s.r].owner) && Current(w.runners[s.r].phase, w.cursor)
    ensures w.cursor <= Next(f, w, s).value.cursor
  {
  }

  lemma OwnCurrent(f: Filter, w: World, s: Step)
    requires HolderInv(w) && HeldStep(w, s) && Next(f, w, s).Some? && !s.Append? && !s.Tick? && !s.Switch?
    requires var v := Next(f, w, s).value;
             s.r in v.granted && s.r in v.runners && v.lease.owner == Some(v.runners[s.r].owner)
    ensures Current(Next(f, w, s).value.runners[s.r].phase, Next(f, w, s).value.cursor)
  {
  }

  lemma OtherCurrent(f: Filter, w: World, s: Step, r: int)
    requires HolderInv(w) && HeldStep(w, s) && ApartStep(w, s) && Next(f, w, s).Some? && !OfRunner(s, r)
    requires var v := Next(f, w, s).value; r in v.granted && r in v.runners && v.lease.owner == Some(v.runners[r].owner)
    ensures Current(Next(f, w, s).value.runners[r].phase, Next(f, w, s).value.cursor)
  {
    OthersUntouched(f, w, s, r);
    if !s.Append? && !s.Tick? && !s.Switch? && s.r in w.runners {
      NameIsOwn(w, r, s.r);
    }
    if WritesCursor(w, s) {
      WriterCurrent(f, w, s);
    }
  }

  lemma KeepsCurrent(f: Filter, w: World, s: Step)
    requires HolderInv(w) && HeldStep(w, s) && ApartStep(w, s) && Next(f, w, s).Some?
    ensures OwnerCurrent(Next(f, w, s).value)
  {
    var v := Next(f, w, s).value;
    forall r | r in v.granted && r in v.runners && v.lease.owner == Some(v.runners[r].owner)
      ensures Current(v.runners[r].phase, v.cursor)
    {
      if OfRunner(s, r) {
        OwnCurrent(f, w, s);
      } else {
        OtherCurrent(f, w, s, r);
      }
    }
  }

  lemma StepKeepsHolderInv(f: Filter, w: World, s: Step)
    requires HolderInv(w) && HeldStep(w, s) && ApartStep(w, s) && Next(f, w, s).Some?
    ensures HolderInv(Next(f, w, s).value)
    ensures w.cursor <= Next(f, w, s).value.cursor
  {
    KeepsGrants(f, w, s);
    KeepsCurrent(f, w, s);
    if WritesCursor(w, s) {
      WriterCurrent(f, w, s);
    }
  }

  lemma {:induction false} RunKeepsGrantInv(f: Filter, w: World, steps: seq<Step>)
    requires GrantInv(w) && ApartRun(f, w, steps) && Run(f, w, steps).Some?
    ensures GrantInv(Run(f, w, steps).value)
  {
    if steps != [] {
      var init := steps[..|steps| - 1];
      RunKeepsGrantInv(f, w, init);
      KeepsGrants(f, Run(f, w, init).value, steps[|steps| - 1]);
    }
  }

  lemma {:induction false} RunKeepsHolderInv(f: Filter, w: World, steps: seq<Step>)
    requires HolderInv(w) && HeldRun(f, w, steps) && ApartRun(f, w, steps) && Run(f, w, steps).Some?
    ensures HolderInv(Run(f, w, steps).value)
    ensures w.cursor <= Run(f, w, steps).value.cursor
  {
    if steps != [] {
      var init := steps[..|steps| - 1];
      RunKeepsHolderInv(f, w, init);
      StepKeepsHolderInv(f, Run(f, w, init).value, steps[|steps| - 1]);
    }
  }

  lemma {:induction false} HeldPrefix(f: Filter, w: World, steps: seq<Step>, k: nat)
    requires k <= |steps| && HeldRun(f, w, steps) && ApartRun(f, w, steps) && Run(f, w, steps).Some?
    ensures HeldRun(f, w, steps[..k]) && ApartRun(f, w, steps[..k]) && Run(f, w, steps[..k]).Some?
    ensures HolderInv(w) ==> Run(f, w, steps[..k]).value.cursor <= Run(f, w, steps).value.cursor
  {
    if k == |steps| {
      assert steps[..k] == steps;
    } else {
      var init := steps[..|steps| - 1];
      HeldPrefix(f, w, init, k);
      assert init[..k] == steps[..k];
      if HolderInv(w) {
        RunKeepsHolderInv(f, w, init);
        StepKeepsHolderInv(f, Run(f, w, init).value, steps[|steps| - 1]);
      }
    }
  }

  /**
   In a run where no claim is granted under the name of a runner at work and every write is made under the writer's own
   lease, the stored cursor never decreases.
   */
  lemma {:induction false} CursorMonotone(f: Filter, log: seq<LogRow>, clock: int, steps: seq<Step>, i: nat, j: nat)
    requires i <= j <= |steps| && Run(f, Fresh(log, clock), steps).Some?
    requires ApartRun(f, Fresh(log, clock), steps) && HeldRun(f, Fresh(log, clock), steps)
    ensures Run(f, Fresh(log, clock), steps[..i]).Some? && Run(f, Fresh(log, clock), steps[..j]).Some?
    ensures Run(f, Fresh(log, clock), steps[..i]).value.cursor <= Run(f, Fresh(log, clock), steps[..j]).value.cursor
  {
    HeldPrefix(f, Fresh(log, clock), steps, j);
    HeldPrefix(f, Fresh(log, clock), steps[..j], i);
    assert steps[..j][..i] == steps[..i];
  }

  /** Where no claim is granted under the name of a runner at work, no two runners hold the lease at one time. */
  lemma {:induction false} OneHolder(f: Filter, log: seq<LogRow>, clock: int, steps: seq<Step>, a: int, b: int)
    requires Run(f, Fresh(log, clock), steps).Some? && ApartRun(f, Fresh(log, clock), steps)
    requires Holds(Run(f, Fresh(log, clock), steps).value, a) && Holds(Run(f, Fresh(log, clock), steps).value, b)
    ensures a == b
  {
    RunKeepsGrantInv(f, Fresh(log, clock), steps);
    var w := Run(f, Fresh(log, clock), steps).value;
    if a != b {
      NameIsOwn(w, a, b);
    }
  }

  /** The last step of such a run: a write at or before its runner's own last granted expiry never lowers the cursor. */
  lemma {:induction false} HeldWriteNeverGoesBack(f: Filter, log: seq<LogRow>, clock: int, steps: seq<Step>, s: Step)
    requires Run(f, Fresh(log, clock), steps).Some?
    requires ApartRun(f, Fresh(log, clock), steps) && HeldRun(f, Fresh(log, clock), steps)
    requires var w := Run(f, Fresh(log, clock), steps).value; WritesCursor(w, s) && Holds(w, s.r) && Next(f, w, s).Some?
    ensures var w := Run(f, Fresh(log, clock), steps).value; w.cursor <= Next(f, w, s).value.cursor
  {
    RunKeepsHolderInv(f, Fresh(log, clock), steps);
    WriterCurrent(f, Run(f, Fresh(log, clock), steps).value, s);
  }
}
