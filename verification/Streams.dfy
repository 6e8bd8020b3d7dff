/**
 Many contexts over one committed store, interleaved. A context reads snapshots and events of committed streams at
 different moments, applies events to the objects it loaded, and commits everything or nothing against the UNIQUE
 constraints.
 */
module Streams {
  import opened Wrappers
  import opened Records
  import opened EventStreams
  import opened Aggregates

  /**
   An event row, with three history values: the object that the event was applied through, and that object's state
   right before and right after.
   */
  datatype Row<S> = Row(event: SerializedEvent, before: S, after: S, slot: int)

  /**
   An aggregate object of a context: its snapshot has been read but its events have not, or it is loaded or created.
   `base` is a history value, the sequence it was loaded at.
   */
  datatype Object<S> = Half(id: int, snapshot: Option<Snapshot>) | Live(id: int, state: S, sequence: int, base: int)

  datatype Ctx<S> = Ctx(objects: map<int, Object<S>>, captured: seq<Row<S>>, snapshots: seq<Snapshot>)

  /** History: context `ctx` committed events for aggregate `id` that it had loaded at sequence `base`. */
  datatype Win = Win(ctx: int, id: int, base: int)

  datatype World<S> = World(
    rows: seq<Row<S>>,
    snapshots: seq<Snapshot>,
    contexts: map<int, Ctx<S>>,
    ended: set<int>,
    wins: set<Win>)

  datatype Move<E> =
    | Begin(c: int)
    | Create(c: int, slot: int, id: int)
    | ReadSnapshot(c: int, slot: int, id: int)
    | ReadEvents(c: int, slot: int)
    | Apply(c: int, slot: int, e: E, time: int, reference: string)
    | Commit(c: int, nows: seq<int>)
    | Abort(c: int)

  type Kinds<!S(!new), !E(!new)> = int -> Kind<S, E>

  function Events<S>(rows: seq<Row<S>>): (events: seq<SerializedEvent>)
    ensures |events| == |rows|
    ensures forall i :: 0 <= i < |rows| ==> events[i] == rows[i].event
  {
    seq(|rows|, i requires 0 <= i < |rows| => rows[i].event)
  }

  function PairOf(e: SerializedEvent): Pair {
    (e.aggregateId, e.sequence)
  }

  function Pairs<S>(rows: seq<Row<S>>): (pairs: seq<Pair>)
    ensures |pairs| == |rows|
    ensures forall i :: 0 <= i < |rows| ==> pairs[i] == PairOf(rows[i].event)
  {
    seq(|rows|, i requires 0 <= i < |rows| => PairOf(rows[i].event))
  }

  function Stamped<S>(rows: seq<Row<S>>, nows: seq<int>): (stamped: seq<Row<S>>)
    requires |nows| == |rows|
    ensures |stamped| == |rows|
    ensures forall i :: 0 <= i < |rows| ==> stamped[i] == rows[i].(event := Stamp(rows[i].event, nows[i]))
  {
    seq(|rows|, i requires 0 <= i < |rows| => rows[i].(event := Stamp(rows[i].event, nows[i])))
  }

  ghost function Stored<S>(w: World<S>, id: int, snapshot: Option<Snapshot>): AggregateState {
    AggregateState(id, snapshot, EventsAfter(Events(w.rows), id, SequenceOf(snapshot)))
  }

  /** loadState against one moment of the store. */
  ghost function LoadNow<S>(w: World<S>, id: int): AggregateState {
    Stored(w, id, MostRecent(w.snapshots, id))
  }

  ghost function With<S>(w: World<S>, c: int, ctx: Ctx<S>): World<S> {
    w.(contexts := w.contexts[c := ctx])
  }

  ghost function Ended<S>(w: World<S>, c: int): World<S> {
    w.(contexts := w.contexts - {c}, ended := w.ended + {c})
  }

  // The context's events and snapshots all pass the UNIQUE constraints, row by row.
  ghost predicate Commits<S>(w: World<S>, ctx: Ctx<S>) {
    && Insertable(Pairs(w.rows), Pairs(ctx.captured))
    && Insertable(SnapshotPairs(w.snapshots), SnapshotPairs(ctx.snapshots))
  }

  ghost function Wins<S>(c: int, ctx: Ctx<S>): set<Win> {
    set slot | slot in ctx.objects && ctx.objects[slot].Live? && ctx.objects[slot].base < ctx.objects[slot].sequence ::
      Win(c, ctx.objects[slot].id, ctx.objects[slot].base)
  }

  ghost function AfterCommit<S>(w: World<S>, c: int, ctx: Ctx<S>, nows: seq<int>): World<S>
    requires |nows| == |ctx.captured|
  {
    if Commits(w, ctx) then
      Ended(w, c).(rows := w.rows + Stamped(ctx.captured, nows), snapshots := w.snapshots + ctx.snapshots,
                   wins := w.wins + Wins(c, ctx))
    else Ended(w, c)
  }

  // The context with a new event on the object in `slot`, or None where the callback gets an error.
  ghost function AfterApply<S(!new), E(!new)>(k: Kind<S, E>, ctx: Ctx<S>, slot: int, e: E, time: int, reference: string)
    : Option<Ctx<S>>
    requires slot in ctx.objects && ctx.objects[slot].Live?
  {
    var o := ctx.objects[slot];
    match Stage(k, o.id, o.state, o.sequence, e, time, reference)
    case Staged(state, event, snapshots) =>
      Some(Ctx(ctx.objects[slot := o.(state := state, sequence := event.sequence)],
               ctx.captured + [Row(event, o.state, state, slot)], ctx.snapshots + snapshots))
    case _ => None
  }

  ghost function Next<S(!new), E(!new)>(ks: Kinds<S, E>, w: World<S>, m: Move<E>): Option<World<S>> {
    if m.Begin? then
      if m.c in w.contexts || m.c in w.ended then None else Some(With(w, m.c, Ctx(map[], [], [])))
    else if m.c !in w.contexts then None
    else InContext(ks, w, m, w.contexts[m.c])
  }

  ghost function InContext<S(!new), E(!new)>(ks: Kinds<S, E>, w: World<S>, m: Move<E>, ctx: Ctx<S>): Option<World<S>>
    requires !m.Begin?
  {
    match m
    case Create(c, slot, id) =>
      if slot in ctx.objects || exists r :: r in w.rows && r.event.aggregateId == id then None
      else Some(With(w, c, ctx.(objects := ctx.objects[slot := Live(id, ks(id).initial, 0, 0)])))
    case ReadSnapshot(c, slot, id) =>
      if slot in ctx.objects then None
      else Some(With(w, c, ctx.(objects := ctx.objects[slot := Half(id, MostRecent(w.snapshots, id))])))
    case ReadEvents(c, slot) =>
      if slot !in ctx.objects || !ctx.objects[slot].Half? then None
      else
        var o := ctx.objects[slot];
        var loaded := Stored(w, o.id, o.snapshot);
        (match Rebuild(ks(o.id), ks(o.id).initial, loaded)
         case None => Some(Ended(w, c))
         case Some(state) =>
           var n := LastSequence(loaded);
           Some(With(w, c, ctx.(objects := ctx.objects[slot := Live(o.id, state, n, n)]))))
    case Apply(c, slot, e, time, reference) =>
      if slot !in ctx.objects || !ctx.objects[slot].Live? then None
      else
        (match AfterApply(ks(ctx.objects[slot].id), ctx, slot, e, time, reference)
         case None => Some(Ended(w, c))
         case Some(ctx') => Some(With(w, c, ctx')))
    case Commit(c, nows) => if |nows| != |ctx.captured| then None else Some(AfterCommit(w, c, ctx, nows))
    case Abort(c) => Some(Ended(w, c))
  }

  ghost function Run<S(!new), E(!new)>(ks: Kinds<S, E>, moves: seq<Move<E>>): Option<World<S>> {
    if moves == [] then Some(World([], [], map[], {}, {}))
    else
      match Run(ks, moves[..|moves| - 1])
      case None => None
      case Some(w) => Next(ks, w, moves[|moves| - 1])
  }

  /** A whole aggregate rebuilt from scratch: every event of the stream folded over the initial state. */
  ghost function FullReplay<S(!new), E(!new)>(ks: Kinds<S, E>, rows: seq<Row<S>>, id: int): Option<S> {
    Replay(ks(id), ks(id).initial, Above(Events(rows), id, 0))
  }

  // ---------------- Rows and streams ----------------

  // A row with this aggregate and sequence is there.
  ghost predicate HasPair<S>(rows: seq<Row<S>>, id: int, sequence: int) {
    exists r :: r in rows && PairOf(r.event) == (id, sequence)
  }

  lemma PairsMember<S(!new)>(rows: seq<Row<S>>, p: Pair)
    ensures p in Pairs(rows) <==> HasPair(rows, p.0, p.1)
  {
    if p in Pairs(rows) {
      var i :| 0 <= i < |rows| && Pairs(rows)[i] == p;
      assert rows[i] in rows;
    }
    if HasPair(rows, p.0, p.1) {
      var r :| r in rows && PairOf(r.event) == p;
      var i :| 0 <= i < |rows| && rows[i] == r;
      assert Pairs(rows)[i] == p;
    }
  }

  lemma HasPairGrows<S>(rows: seq<Row<S>>, more: seq<Row<S>>, id: int, sequence: int)
    requires HasPair(rows, id, sequence) && forall r :: r in rows ==> r in more
    ensures HasPair(more, id, sequence)
  {
    var r :| r in rows && PairOf(r.event) == (id, sequence);
    assert r in more;
  }

  lemma PairsConcat<S>(a: seq<Row<S>>, b: seq<Row<S>>)
    ensures Pairs(a + b) == Pairs(a) + Pairs(b)
  {
  }

  // Saving keeps the aggregates and the sequences.
  lemma StampedPairs<S>(rows: seq<Row<S>>, captured: seq<Row<S>>, nows: seq<int>)
    requires |nows| == |captured|
    ensures Pairs(Stamped(captured, nows)) == Pairs(captured)
    ensures Pairs(rows + Stamped(captured, nows)) == Pairs(rows) + Pairs(captured)
  {
    PairsConcat(rows, Stamped(captured, nows));
  }

  function Stream<S>(rows: seq<Row<S>>, id: int): seq<Row<S>> {
    if rows == [] then []
    else
      var r := rows[|rows| - 1];
      Stream(rows[..|rows| - 1], id) + (if r.event.aggregateId == id then [r] else [])
  }

  lemma {:induction false} StreamMembers<S>(rows: seq<Row<S>>, id: int)
    ensures forall r :: r in Stream(rows, id) <==> r in rows && r.event.aggregateId == id
  {
    if rows != [] {
      StreamMembers(rows[..|rows| - 1], id);
      assert forall r :: r in rows <==> r in rows[..|rows| - 1] || r == rows[|rows| - 1];
    }
  }

  lemma {:induction false} StreamConcat<S>(a: seq<Row<S>>, b: seq<Row<S>>, id: int)
    ensures Stream(a + b, id) == Stream(a, id) + Stream(b, id)
    decreases |b|
  {
    if b == [] {
      assert a + b == a;
    } else {
      assert (a + b)[..|a + b| - 1] == a + b[..|b| - 1];
      StreamConcat(a, b[..|b| - 1], id);
    }
  }
}
