/** A run of a subscription as a function of the logs that its turns see. */
module SubscriptionRuns {
  import opened Wrappers
  import opened Records
  import opened EventLog
  import opened NaturalKeys
  import opened EngineTables
  import opened Leases
  import opened Draining
  import opened MemoryEngine

  const DEFAULT_BATCH_SIZE := 100
  const DEFAULT_LEASE := 15_000_000_000

  /** Options as the caller gives them. Lengths of time are in nanoseconds. */
  datatype Options = Options(batchSize: int, lease: int, owner: string)

  function BatchSize(opts: Options): (n: int)
    ensures 0 < n
  {
    if opts.batchSize <= 0 then DEFAULT_BATCH_SIZE else opts.batchSize
  }

  function LeaseLength(opts: Options): (n: int)
    ensures 0 < n
  {
    if opts.lease <= 0 then DEFAULT_LEASE else opts.lease
  }

  /**
   What happens around one turn of a runner's loop: other contexts add or rekey aggregates and commit events, someone
   may deactivate the subscription, and the runner's clock and handler answer. The runner is cancelled after the last.
   */
  datatype Round = Round(keyOps: seq<KeyOp>, events: seq<StorageEvent>, deactivate: bool, now: int, handlerOk: bool)

  datatype Outcome = Cancelled | AlreadyOwned | UnknownStart | Inactive | HandlerFailed

  /** A round, with the log as its turn finds it. */
  datatype Seen = Seen(round: Round, log: seq<LogRow>)

  predicate Uneventful(round: Round) {
    round.keyOps == [] && round.events == []
  }

  // The log before turn n.
  function LogBefore(log0: seq<LogRow>, seen: seq<Seen>, n: nat): seq<LogRow>
    requires n <= |seen|
  {
    if n == 0 then log0 else seen[n - 1].log
  }

  predicate LogGrowsAt(log0: seq<LogRow>, seen: seq<Seen>, n: nat)
    requires n < |seen|
  {
    && LogBefore(log0, seen, n) <= seen[n].log
    && (Uneventful(seen[n].round) ==> seen[n].log == LogBefore(log0, seen, n))
  }

  /** The log only grows, and only in rounds in which others do something. */
  ghost predicate LogGrows(log0: seq<LogRow>, seen: seq<Seen>) {
    forall n :: 0 <= n < |seen| ==> LogGrowsAt(log0, seen, n)
  }

  // ---------------- What the turns see ----------------

  predicate OnlyCreates(ops: seq<KeyOp>) {
    forall i :: 0 <= i < |ops| ==> !ops[i].ChangeKey?
  }

  // No key changes. A change of key shows in the log, in the rows of events that came before it.
  predicate CreatesOnly(rounds: seq<Round>) {
    forall i :: 0 <= i < |rounds| ==> OnlyCreates(rounds[i].keyOps)
  }

  /** The tables after the others' part of a round: their aggregates, and their events if what these refer to exists. */
  function AfterRound(t: LogTables, round: Round): LogTables {
    var keys := DoAll(t.keys, round.keyOps);
    var written := if References(round.events, keys, t.eventTypes) then round.events else [];
    t.(keys := keys, events := t.events + written)
  }

  function AfterRounds(t: LogTables, rounds: seq<Round>): LogTables {
    if rounds == [] then t else AfterRound(AfterRounds(t, rounds[..|rounds| - 1]), rounds[|rounds| - 1])
  }

  /** What the turns see: each finds the log as the rounds up to its own have left it. */
  function SeenOf(t: LogTables, rounds: seq<Round>): (seen: seq<Seen>)
    ensures |seen| == |rounds|
  {
    if rounds == [] then []
    else SeenOf(t, rounds[..|rounds| - 1]) + [Seen(rounds[|rounds| - 1], LogOf(AfterRounds(t, rounds)))]
  }

  // The turns went through the first of these rounds, saw what these left, and left these tables.
  predicate GoesThrough(rounds: seq<Round>, t0: LogTables, t: LogTables, seen: seq<Seen>) {
    && |seen| <= |rounds|
    && seen == SeenOf(t0, rounds[..|seen|])
    && t == AfterRounds(t0, rounds[..|seen|])
  }

  // The others' part of a round keeps the tables sound and adds to the log.
  lemma RoundGrows(t: LogTables, round: Round)
    requires Sound(t) && OnlyCreates(round.keyOps)
    ensures Sound(AfterRound(t, round)) && LogOf(t) <= LogOf(AfterRound(t, round))
    ensures Uneventful(round) ==> LogOf(AfterRound(t, round)) == LogOf(t)
  {
    var t' := AfterRound(t, round);
    RunExtends(t.keys, round.keyOps);
    WithoutChangesConsistent(t.keys, round.keyOps);
    var written := t'.events[|t.events|..];
    assert t'.events == t.events + written;
    ViewGrows(t.events, written, t.keys, t'.keys, t.eventTypes, t.eventTypes);
  }

  /** The events of a round are in the tables after it, in order, if what they refer to exists, and else none is. */
  lemma RoundAppends(t: LogTables, round: Round)
    ensures var t', n := AfterRound(t, round), |t.events|;
            && t'.keys == DoAll(t.keys, round.keyOps) && t'.eventTypes == t.eventTypes
            && t'.aggregateTypes == t.aggregateTypes
            && n <= |t'.events| && t'.events[..n] == t.events
            && (if References(round.events, t'.keys, t.eventTypes) then t'.events[n..] == round.events
                else t'.events[n..] == [])
  {
  }

  lemma {:induction false} RoundsExtend(t: LogTables, rounds: seq<Round>)
    ensures t.events <= AfterRounds(t, rounds).events && AfterRounds(t, rounds).eventTypes == t.eventTypes
  {
    if rounds != [] {
      RoundsExtend(t, rounds[..|rounds| - 1]);
    }
  }

  /** So the log that the turns see only grows, and only in rounds in which others do something. */
  lemma {:induction false} SeenLogsGrow(t: LogTables, rounds: seq<Round>)
    requires Sound(t) && CreatesOnly(rounds)
    ensures Sound(AfterRounds(t, rounds)) && LogGrows(LogOf(t), SeenOf(t, rounds))
    ensures LogBefore(LogOf(t), SeenOf(t, rounds), |rounds|) == LogOf(AfterRounds(t, rounds))
  {
    if rounds != [] {
      var init := rounds[..|rounds| - 1];
      SeenLogsGrow(t, init);
      RoundGrows(AfterRounds(t, init), rounds[|init|]);
      forall n | 0 <= n < |rounds|
        ensures LogGrowsAt(LogOf(t), SeenOf(t, rounds), n)
      {
        assert n < |init| ==> LogGrowsAt(LogOf(t), SeenOf(t, init), n);
      }
    }
  }

  function Concat(batches: seq<seq<SerializedEvent>>): seq<SerializedEvent> {
    if batches == [] then [] else Concat(batches[..|batches| - 1]) + batches[|batches| - 1]
  }

  // ---------------- The durable loop ----------------

  datatype Turn = Idle | Handed(events: seq<SerializedEvent>) | Stopped(outcome: Outcome)

  /** The row and the answer after one turn of the durable loop: reload, fetch, handle, advance, renew. */
  function AfterTurn(row: SubscriptionRow, s: Seen, f: Filter, opts: Options): (SubscriptionRow, Turn) {
    var batch := Fetch(s.log, f, row.lastEventId, BatchSize(opts));
    var renewed := AfterRenew(row.lease, opts.owner, s.round.now, LeaseLength(opts));
    if !row.lease.active then (row, Stopped(Inactive))
    else if batch == [] then (row.(lease := renewed), Idle)
    else if !s.round.handlerOk then (row, Stopped(HandlerFailed))
    else (row.(lastEventId := Last(batch), lease := renewed), Handed(Render(s.log, batch)))
  }

  // The row as the others leave it to the turn.
  function Touched(row: SubscriptionRow, round: Round): SubscriptionRow {
    if round.deactivate then row.(lease := row.lease.(active := false)) else row
  }

  /** How far a durable run has come. It goes on while it has no reason to stop. */
  datatype Progress = Progress(row: SubscriptionRow, delivered: seq<seq<SerializedEvent>>, stop: Option<Outcome>)

  function Moved(p: Progress, s: Seen, f: Filter, opts: Options): Progress {
    if p.stop.Some? then p
    else
      var (row, turn) := AfterTurn(Touched(p.row, s.round), s, f, opts);
      match turn
      case Stopped(outcome) => Progress(row, p.delivered, Some(outcome))
      case Idle => Progress(row, p.delivered, None)
      case Handed(events) => Progress(row, p.delivered + [events], None)
  }

  function Play(p: Progress, seen: seq<Seen>, f: Filter, opts: Options): Progress {
    if seen == [] then p else Moved(Play(p, seen[..|seen| - 1], f, opts), seen[|seen| - 1], f, opts)
  }

  // A loop that has no reason to stop ends when it is cancelled.
  function OutcomeOf(stop: Option<Outcome>): Outcome {
    if stop.Some? then stop.value else Cancelled
  }

  // ---------------- The durable run ----------------

  // The row that the upsert leaves: a new one with the next id, or the old one with its definition replaced.
  function Defined(rows: map<string, SubscriptionRow>, last: int, name: string, want: Filter,
                   start: Start): SubscriptionRow {
    if name in rows then
      Redefined(rows[name], want.aggregateTypeId, want.eventTypeId, want.aggregateKey, start)
    else NewRow(last + 1, name, want.aggregateTypeId, want.eventTypeId, want.aggregateKey, start)
  }

  // Types joined to the subscription's id before, by an earlier run of the same name, are still joined.
  function WithJoined(want: Filter, joined: map<int, set<int>>, id: int): Filter {
    want.(eventTypes := JoinedTo(joined, id) + want.eventTypes)
  }

  // Where a runner that reads this row starts.
  function Placed(row: SubscriptionRow, log: seq<LogRow>): SubscriptionRow {
    if row.lastEventId == 0 && PlaceCursor(row.start, log).MoveTo? then
      row.(lastEventId := PlaceCursor(row.start, log).cursor)
    else row
  }

  // Why the run ends before its loop, if it does.
  function Refusal(defined: SubscriptionRow, log: seq<LogRow>, now: int): Option<Outcome> {
    if !MayClaim(defined.lease, now) then Some(AlreadyOwned)
    else if defined.lastEventId == 0 && PlaceCursor(defined.start, log).Reject? then Some(UnknownStart)
    else None
  }

  // Where a run that is not refused begins its loop: the lease is claimed and the cursor is placed.
  function Begun(defined: SubscriptionRow, log: seq<LogRow>, opts: Options, now: int): Progress {
    var claimed := defined.(lease := AfterClaim(defined.lease, opts.owner, now, LeaseLength(opts)));
    Progress(Placed(claimed, log), [], None)
  }

  function Released(p: Progress, opts: Options): Progress {
    p.(row := p.row.(lease := AfterRelease(p.row.lease, opts.owner)))
  }

  /** A run from the stored definition to the deferred release. */
  function Answer(log0: seq<LogRow>, seen: seq<Seen>, defined: SubscriptionRow, f: Filter, opts: Options, now: int)
    : Progress
  {
    var refusal := Refusal(defined, log0, now);
    if refusal == Some(AlreadyOwned) then Progress(defined, [], refusal)
    else
      var begun := Begun(defined, log0, opts, now);
      Released(if refusal.Some? then begun.(stop := refusal) else Play(begun, seen, f, opts), opts)
  }

  // ---------------- The ephemeral run ----------------

  /** One turn of the local loop: where the batch after the cursor ends, and the part of it that the names keep. */
  function LocalTurn(log: seq<LogRow>, g: Filter, names: Option<set<string>>, cursor: int, limit: int)
    : (int, seq<SerializedEvent>)
    requires 0 < limit
  {
    var batch := FetchInLog(log, g, cursor, limit);
    (if batch == [] then cursor else Last(batch), Render(log, KeepNames(log, names, batch)))
  }

  /** How far a local run has come: `cursor` is the end of the last batch that needed no handler or was handled. */
  datatype LocalProgress = LocalProgress(cursor: int, delivered: seq<seq<SerializedEvent>>, stop: Option<Outcome>)

  function MovedLocally(p: LocalProgress, s: Seen, g: Filter, names: Option<set<string>>, limit: int): LocalProgress
    requires 0 < limit
  {
    if p.stop.Some? then p
    else
      var (next, deliver) := LocalTurn(s.log, g, names, p.cursor, limit);
      if deliver == [] then p.(cursor := next)
      else if !s.round.handlerOk then p.(stop := Some(HandlerFailed))
      else LocalProgress(next, p.delivered + [deliver], None)
  }

  function PlayLocally(p: LocalProgress, seen: seq<Seen>, g: Filter, names: Option<set<string>>,
                       limit: int): LocalProgress
    requires 0 < limit
  {
    if seen == [] then p
    else MovedLocally(PlayLocally(p, seen[..|seen| - 1], g, names, limit), seen[|seen| - 1], g, names, limit)
  }

  /** A local run. */
  function LocalAnswer(log0: seq<LogRow>, seen: seq<Seen>, g: Filter, names: Option<set<string>>, start: Start,
                       opts: Options)
    : LocalProgress
  {
    match EphemeralCursor(start, log0)
    case None => LocalProgress(0, [], Some(UnknownStart))
    case Some(from) => PlayLocally(LocalProgress(from, [], None), seen, g, names, BatchSize(opts))
  }
}
