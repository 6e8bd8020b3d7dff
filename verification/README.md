# Evercore, modelled in Dafny

Evercore is an event-sourcing store. Callers run contexts: a context loads aggregates (latest snapshot plus the events
after it), applies new events to them, stages a snapshot whenever a sequence is a multiple of the snapshot frequency,
and saves everything at the end. Subscriptions read the resulting log in order, either durably (a stored cursor and a
lease) or ephemerally (a local cursor). Storage is an engine: one in memory, one on SQLite.

The project has four parts.

* **Streams under optimistic concurrency.** `Streams` is a step machine of any number of contexts over one store. Each
  read, each applied event, each commit and each abort is a step of its own, so other contexts may commit between the
  snapshot read and the event read of a load. The two `UNIQUE` constraints are checked row by row at commit.
  `StreamSequences` holds what every run keeps of sequences, whatever the codecs, states and times, and
  `StreamTheorems` and `StreamCommits` what follows from it. `StreamMeanings` gives the exact condition under which
  snapshots keep their meaning, for every frequency and whatever times are saved, and that loads are full replays
  where they do; `CommitLoading` gives it for the load after one commit. `StreamReplays` holds what runs keep of
  states when every event is saved alike, `ZeroTimes` relates the two and gives a run in which a snapshot loses its
  meaning. `StreamTables` carries runs over to the SQLite tables and the memory engine's loads. `Contexts` and
  `Loading` are the imperative counterparts: one context, its objects, and loads. `SqliteEngine` is the transactional
  write path.
* **Delivery and leases.** `Delivery` is a step machine of any number of runners on one durable subscription, one
  engine call a step, with expired leases, shared owner names, failing handlers, crashes and restarts.
  `DeliveryBounds` and `CatchingUp` hold consequences. `LeaseHolding` proves what leases buy under two disciplines,
  and `LeaseSharpness` and `SharedNames` that the cursor can go back where either is broken. `RunnerSteps` shows that
  a whole run of the runner's code is a run of the machine. `Leases` proves exclusion over runs of lease requests.
* **Reading a log.** `EventLog` and `Draining` define what a fetch and a whole drain read. `SubscriptionRuns` defines
  a run of either runner over the logs that its turns see, and what rounds of other contexts' work leave these to be.
  `SubscriptionTheorems`, `StartPositions` and `Turns` prove what such runs promise, `StoredSubscriptions` what a call
  promises in terms of the rows that were stored before it, and `Subscriptions` and `EphemeralSubscriptions` are the
  code of both runners over the memory engine, proved to be these runs.
* **The memory engine as an index.** `MemoryEngine` and `EventStore` are classes with the source's maps, counters,
  slices and caches. `TypeNames`, `NaturalKeys`, `EngineTables`, `EventStreams` and `Publishing` give the declarative
  store that they agree with, including the SQL query. `EngineRuns` drives a new engine through any operations and
  shows that its tables stay sound, so that what needs sound tables holds of every such run. `FieldMerge` and
  `StateAggregates` cover aggregates whose events carry fields.

## Assumptions

* Times are integers and the zero time is 0. Clock readings are parameters.
* Each runner reads its own clock in the source. In delivery and lease runs all readings come from one clock that never
  goes back, so clocks of different machines are taken to agree.
* Event and snapshot encodings are faithful where states are compared: decoding what was encoded gives it back
  (`Aggregates.Faithful`). What is proved of sequences, commits and snapshot positions does not need it.
* In stream runs, aggregates are loaded into fresh objects, events go through ApplyEventTo, and a callback returns any
  error it gets.
* Saving replaces a zero event time after a snapshot was taken. Loads are full replays where every commit respects its
  due snapshots: the events as saved lead to the state that the snapshot holds (`StreamMeanings.RunSavesMean`). This
  is exactly the condition under which snapshots keep their meaning. That loads also succeed is claimed where each
  event does at its saved time what it did at its own (`StreamReplays.RunSavesAlike`), as events with times of their
  own always do (`ZeroTimes.TimedRunsAlike`).
* In delivery runs the log is append-only and ids become visible in order, and the filter and the keys are fixed.
  Batch sizes are positive, which the runners themselves see to.
* Runners are told apart from the owner names they go by, and two may share one: the default name is host and process id
  (base/subscriptions.go:64-67). Only `CursorMonotone`, `OneHolder` and `HeldWriteNeverGoesBack` ask that no claim is
  granted under the name of a runner that is still at work (`LeaseHolding.ApartRun`). A second runner of one name that
  starts and is refused is covered.

## Where code and documentation differ

* README.md:211 promises that a lease lets only one worker process a subscription at a time. The result of the renewal
  is ignored (base/subscriptions.go:197 and 225) and the cursor update compares nothing (base/memory.go:396-403), so a
  runner that outlives its lease keeps working and can move the cursor back (`LeaseSharpness.LateWriteCanGoBack`). And
  two runners of one process share their default owner name (base/subscriptions.go:64-67). Whenever the second is
  granted a claim while the first is still at work, the cursor can go back although nobody writes late
  (`SharedNames.NamesExactly`), and both can hold the lease at once (`SharedNames.SharedOwnerMovesCursorBack`).
  At-least-once delivery (README.md:218) holds all the same (`Delivery.AtLeastOnce`).
* A timestamp start that no event of the log has reached yet starts at the beginning and hands over the earlier events
  (base/subscriptions.go:149-162; `StartPositions.NothingBeforeStart`).
* An empty start kind is accepted by the ephemeral runner and refused by the durable one (`Draining.ModesAgree`).
* Saving replaces a zero event time after the event was applied and the snapshot taken (base/eventstore.go:148-150),
  so an aggregate that looks at the time can load as something else than its events say
  (`ZeroTimes.ZeroTimeSnapshotDiffers`).
* In memory, ChangeAggregateNaturalKey follows a nil pointer on an aggregate without a key, and takes over a key that
  another aggregate has (`NaturalKeys.ChangeKeyExactly`).
* In memory, a limit of 0 still returns one event; in SQL it returns none (`EventLog.LimitZeroExactly`).
* Types joined to a named subscription are never removed and override a single type given later; `WithJoined` in the
  contract of `Subscriptions.RunSubscription` says so.
* InContext defers the rollback before it checks that the transaction was started, so a failed start panics there and
  is an error in WithContext (base/eventstore.go:61-65 and 108-112).
* The SQLite subscription query returns an empty reference; the memory scan returns the stored one.

## Model

| member | source | states |
|---|---|---|
| `StreamMeanings.SnapshotsMeanExactly` | base/eventstore.go:148-150 | for every frequency and every run, all snapshots of an aggregate decode to the fold of its saved events up to their sequence if and only if in every commit, wherever a snapshot was due, the events as saved lead to the state it was taken of |
| `StreamMeanings.NothingDueMeans` | base/context.go:304-316 | a commit in which no snapshot of the aggregate is due respects this whatever its times |
| `StreamMeanings.RunKeepsMeaning` | base/context.go:128-154 | every run that respects its due snapshots keeps: snapshots, unchanged objects and the first staged row of each object hold folds of saved events |
| `StreamMeanings.LoadIsFullReplay` | base/context.go:128-154 | after every run of interleaved contexts that respects its due snapshots, loading the aggregate fresh gives the state of folding all its committed events, failure included, and their sequence |
| `StreamMeanings.TornLoadIsFullReplay` | base/context.go:131-141 | the same when commits happen between the snapshot read and the event read: the result is the stream as of the event read |
| `CommitLoading.LoadAfterCommitExactly` | base/eventstore.go:148-150 | from every store that such a run leaves, a commit of any events at any frequency leaves load and replay equal if and only if no snapshot of the aggregate was due in it or its saved events lead from the last due state to where they all lead |
| `StreamReplays.AlikeLoadSucceeds` | base/context.go:128-154 | where every event of the aggregate was saved alike, loading it fresh also succeeds |
| `StreamReplays.AlikeTornLoadSucceeds` | base/context.go:131-141 | and so does a load with commits between its two reads |
| `StreamTheorems.StreamsAreGapFree` | evercoresqlite/sql/migrations/20240924024805_initial.sql:19-33 | in every reachable store an aggregate's committed sequences are exactly 1..n, in commit order |
| `StreamTheorems.AtMostOneCommits` | evercoresqlite/engine.go:340-375 | of all contexts that loaded an aggregate at one sequence and applied an event to it, at most one commits, in every run |
| `StreamTheorems.SnapshotSpacing` | base/context.go:304-316 | in every reachable store snapshots sit exactly at the positive multiples of the frequency up to the number of events |
| `StreamTheorems.LoadReadsShortTail` | base/context.go:131-141 | a load reads exactly n mod frequency events, or all n without snapshots, and ends at sequence n |
| `StreamTheorems.LastCapturedIsMostRecent` | base/memory.go:213-220 | in every reachable store the snapshot captured last, which the memory engine takes, is the one of highest sequence, which SQL takes |
| `StreamSequences.RunKeepsCounted` | base/eventstore.go:107-135 | every run, whatever the codecs, states and times, keeps: committed pairs are distinct and each continues its stream, staged rows continue it further, snapshots sit at the due pairs, one winner per loaded sequence |
| `StreamSequences.NumbersCount` | evercoresqlite/sql/migrations/20240924024805_initial.sql:19-33 | in a duplicate-free table whose pairs each continue an earlier one, an aggregate's sequences are 1, 2, 3 and so on in table order |
| `StreamReplays.RunKeepsInv` | base/eventstore.go:107-135 | every run that saves the aggregate's events alike keeps: its committed and staged rows start at the state where the row before them ends, and its snapshots and objects hold states of rows |
| `StreamCommits.CommitsExactly` | evercoresqlite/sql/migrations/20240924024805_initial.sql:32-42 | in every run a context commits if and only if no stream it adds to has grown since it was loaded and it adds to no stream through two objects; the snapshot constraint never fails by itself |
| `StreamTables.TablesHoldTheRun` | evercoresqlite/engine.go:340-375 | carried out on the SQLite tables, every run leaves exactly its rows and snapshots there, and commits succeed alike |
| `StreamTables.TablesLoadFullReplay` | evercoresqlite/engine.go:284-338 | on those tables an aggregate's sequences are 1, 2, 3 and so on after every run; where the run respected its due snapshots the two load queries rebuild the fold of all of them, and where its events were saved alike that succeeds |
| `StreamTables.MemoryLoadsAlike` | base/memory.go:213-239 | a memory engine that holds a run's rows and snapshots gives every load what the SQL queries give |
| `StreamReplays.TableIsChained` | base/context.go:292-303 | a duplicate-free table whose rows each continue an earlier row gives the aggregate a chain of states |
| `StreamReplays.TailReplays` | base/context.go:256-280 | any snapshot of a stream, or none, plus the tail after it rebuilds the full replay |
| `ZeroTimes.TimedRunsAlike` | base/eventstore.go:148-150 | a run whose events of an aggregate all have times of their own saves each of them alike |
| `ZeroTimes.AlikeRunsMean` | base/eventstore.go:148-150 | a run that saves each event of an aggregate alike respects its due snapshots, for every frequency |
| `ZeroTimes.ZeroTimeExactly` | base/eventstore.go:148-150 | with a snapshot at every event the two agree: all snapshots keep their meaning if and only if the run saved each event alike |
| `ZeroTimes.OneEventExactly` | base/eventstore.go:148-150 | there, a commit of one event of the aggregate leaves load and replay equal if and only if that event does at its saved time what it did when it was applied |
| `ZeroTimes.ZeroTimeSnapshotDiffers` | base/eventstore.go:148-150 | an aggregate for which they differ |
| `EventStreams.InsertableExact` | evercoresqlite/sql/migrations/20240924024805_initial.sql:32-42 | inserts checked one by one all succeed exactly when the full table has no duplicate |
| `EventStreams.AboveIsSuffix` | evercoresqlite/engine.go:307-338 | in a gap-free stream the events above a sequence are the ones from that position on |
| `EventStreams.BySequenceSorts` | evercoresqlite/sql/queries.sql:69-74 | ORDER BY sequence gives an ordered list of the same events |
| `EventStreams.MostRecent` | evercoresqlite/sql/queries.sql:79-84 | a snapshot of the aggregate with the highest sequence, or none if it has none |
| `SqliteEngine.SqliteStorageEngine.WriteState` | evercoresqlite/engine.go:340-375 | succeeds exactly when all rows pass the constraints; on failure the transaction holds the rows before the failing one |
| `SqliteEngine.SqliteStorageEngine.WithContext` | base/eventstore.go:107-135 | all of a context's events and snapshots are committed or nothing is, with the exact condition for success |
| `SqliteEngine.SqliteStorageEngine.InContext` | base/eventstore.go:59-87 | the same, with a panic exactly when the transaction cannot be started |
| `SqliteEngine.WritableExactly` | evercoresqlite/engine.go:340-375 | work can be written exactly when the tables with all of it have no duplicates |
| `Contexts.EventStoreContext.ApplyEventTo` | base/context.go:283-318 | the object moves to the next state and sequence; the staged event replays to the same move; a snapshot that decodes to the new state is staged exactly when due |
| `Contexts.ApplyState` | base/context.go:256-280 | succeeds exactly when snapshot and tail can be replayed, and then the object holds the replay; an error leaves id and sequence alone |
| `Loading.LoadState` | base/context.go:128-154 | the last captured snapshot and the events above its sequence, in order |
| `Loading.LoadStateInto` | base/context.go:162-176 | succeeds exactly when the aggregate exists with this type and can be replayed |
| `Loading.LoadStateByKeyInto` | base/context.go:179-194 | the same through the key index |
| `Loading.LoadOrCreateAggregate` | base/context.go:209-230 | creates or loads exactly as the key index answers; a created aggregate gets its id only, and the second lookup never misses |
| `StateAggregates.LoadedFieldsAreLastWritten` | base/stateaggregate.go:115-123 | after every run of contexts, each field of a loaded state aggregate is the converted value of the last committed event that carries one, or its initial value |
| `StateAggregates.StateEventsSavedAlike` | base/stateaggregate.go:115-123 | state aggregates ignore event times, so every run saves their events alike |
| `StateAggregates.SnapshotsEveryTen` | base/stateaggregate.go:108-110 | in every run, a state aggregate's snapshots sit exactly at its tenth, twentieth and so on event |
| `StateAggregates.DecodedExactly` | base/stateaggregate.go:57-75 | an event is decoded exactly when some decoder gives it and all decoders registered before that one pass |
| `StateAggregates.Decoders.DecodeEvent` | base/stateaggregate.go:57-75 | the first decoder that answers decides, errors included; no decoders at all is a panic |
| `StateAggregates.Decoders.RegisterEventDecoder` | base/stateaggregate.go:50-54 | decoders are added at the end, in order |
| `FieldMerge.State.CopyFields` | base/stateaggregate.go:148-199 | computes the merge; on an error exactly the fields before the first unfit one stay written |
| `FieldMerge.MergeExact` | base/stateaggregate.go:164-197 | a merge succeeds exactly on well-typed events, and then only carried fields change, keeping their types |
| `FieldMerge.LastWriterWins` | base/stateaggregate.go:164-197 | folding any events succeeds exactly when each is well typed, and leaves each field at its last written value |
| `FieldMerge.MergeTwice` | base/stateaggregate.go:164-197 | merging one event twice in a row is merging it once |
| `Delivery.AtLeastOnce` | base/subscriptions.go:174-228 | in every interleaving of any number of runners, shared owner names, crashes and expired leases included, each matching event above the start floor and at or below the cursor was in a batch whose handler call returned nil |
| `Delivery.StepKeepsDeliveryInv` | base/subscriptions.go:174-228 | every single engine call keeps what at-least-once rests on |
| `DeliveryBounds.StartSkipsOnlyWhatItNames` | base/subscriptions.go:131-171 | over restarts with timestamps up to ts and event ids up to n, every passed matching event above n and not earlier than ts was handled |
| `DeliveryBounds.BeginningSkipsNothing` | base/subscriptions.go:166-167 | with starts at the beginning only, every passed matching event was handled |
| `DeliveryBounds.CanAlwaysCatchUp` | base/subscriptions.go:174-228 | from every reachable state some continuation handles every matching event above the floor |
| `CatchingUp.KeepingGoingCatchesUp` | base/subscriptions.go:174-228 | from every reachable state an active runner that takes as many turns as there are batches left, of any positive size, has everything above the floor handled, however other runners interleave short of writing the cursor |
| `CatchingUp.CanKeepGoing` | base/subscriptions.go:174-228 | such a runner can always take any number of turns by itself |
| `RunnerSteps.TurnIsRun` | base/subscriptions.go:181-227 | one turn of the coded loop is a run of the machine by this runner's steps alone, with the same stored cursor and lease after it and exactly the handed batch counted as handled |
| `RunnerSteps.StartIsRun` | base/subscriptions.go:113-171 | so is a start: refused claims, cursor placing and unknown start kinds included |
| `RunnerSteps.LoopIsRun` | base/subscriptions.go:174-228 | so is the whole loop, with what others commit between its turns, however it ends |
| `RunnerSteps.CodeIsRun` | base/subscriptions.go:105-229 | so is a whole run from its claim to the deferred release: it leaves the same row, and exactly the ids it handed over are counted as handled |
| `RunnerSteps.CodeDeliversAtLeastOnce` | base/subscriptions.go:105-229 | after any history of any number of runners, what the stored cursor has passed above the floor was handled before or is handed over by this run |
| `LeaseHolding.CursorMonotone` | base/subscriptions.go:216-228 | if every cursor write is made at or before the writer's own last granted expiry and no claim is granted under the name of a runner still at work, the cursor never decreases |
| `LeaseHolding.OneHolder` | base/memory.go:313-346 | if no claim is granted under the name of a runner still at work, no two runners hold the lease at one time |
| `LeaseHolding.HeldWriteNeverGoesBack` | base/memory.go:396-403 | the last step of such a run: a write that its runner makes at or before its own last granted expiry, which is all that it can know, never lowers the cursor |
| `LeaseSharpness.LateWriteCanGoBack` | base/subscriptions.go:131-171 | from every reachable state with a runner between its fetch and its write, or about to write a computed start, there is a continuation, within both disciplines for all others, in which that runner's write is late and lowers the cursor |
| `LeaseSharpness.StaleRunnerMovesCursorBack` | base/subscriptions.go:216-228 | for every filter, a run from a fresh subscription in which one late write alone moves the cursor back |
| `SharedNames.NamesExactly` | base/subscriptions.go:64-67 | after any run within both disciplines, a step is a claim granted under the name of a runner at work if and only if the cursor can go back after it although all later steps keep both disciplines |
| `SharedNames.SharedNameLowers` | base/memory.go:338-346 | from every state, reachable or not, in which a runner holds a claim just granted under a name that another works under, such a continuation exists: the other one's release by name frees the lease |
| `SharedNames.SharedOwnerMovesCursorBack` | base/subscriptions.go:64-67 | for every filter, a run of two runners with one owner name in which both hold the lease at once and the cursor goes back although every write is held |
| `Leases.LeaseExclusion` | base/memory.go:304-346 | from a grant up to and including its expiry nobody else is granted the lease unless the holder released it |
| `Leases.ShorterRenewalEndsExclusion` | base/memory.go:328-336 | why exclusion asks that a holder's later leases are not shorter |
| `Leases.ClaimGuardsAgree` | evercoresqlite/engine_subscriptions_raw.go:106-119 | the claim guards of both engines agree at all times unless an active record has an owner and no expiry |
| `Leases.EnginesGrantAlike` | evercoresqlite/engine_subscriptions_raw.go:106-146 | no sequence of requests on a fresh subscription leads to such a record |
| `Leases.EnginesKeepAlike` | evercoresqlite/engine_subscriptions_raw.go:97-156 | any sequence of requests on a fresh subscription leaves the same lease under the SQL updates and in memory |
| `EventLog.SelectExact` | evercoresqlite/engine_subscriptions_raw.go:169-191 | the selection holds each matching id in range once, in increasing order |
| `EventLog.FetchCovers` | base/memory.go:348-394 | a fetched batch leaves out no match up to its last id, and an empty one means none is left |
| `EventLog.FirstFrom` | base/memory.go:409-416 | the smallest id whose time is not before the timestamp, or 0 |
| `EventLog.TimestampStartSkipsOnlyEarlier` | base/subscriptions.go:149-162 | a timestamp start passes over strictly earlier events only, in any order of times |
| `EventLog.LimitZeroExactly` | base/memory.go:389-391 | reading with limit 0 as with limit 1 shows exactly when something matches |
| `Draining.DrainIsSelection` | base/subscriptions.go:190-222 | the batches of a drain are, put together, the filter of the log after the cursor: exactly once and in order, for every batch size |
| `Draining.DrainCount` | base/subscriptions.go:190-222 | draining m matching events takes exactly ceil(m / batch size) handler calls |
| `Draining.FetchAdvances` | base/subscriptions.go:320-352 | every fetch that reads something brings the cursor closer to the end of the log |
| `Draining.EphemeralIsKept` | base/subscriptions.go:311-357 | fetching first and filtering by name afterwards keeps exactly the named part of the query |
| `Draining.ModesAgree` | base/subscriptions.go:240-357 | durable and ephemeral mode hand over the same events in the same order for every filter and start, and start at one place except for the empty start kind |
| `Subscriptions.RunSubscription` | base/subscriptions.go:47-229 | from the stored rows, one runner's outcome, batches and stored row are those of the run as `SubscriptionRuns.Answer` defines it, over exactly the logs that the rounds of other contexts leave to its turns, and no other row changes; what such a call promises is stated in `StoredSubscriptions` |
| `StoredSubscriptions.HeldIsRefused` | base/subscriptions.go:105-119 | a call is refused exactly where the row that was stored before it is held up to and including its expiry, or inactive; it then hands over nothing and leaves cursor and lease as they were, and no call changes another row |
| `StoredSubscriptions.UnknownIsReported` | base/subscriptions.go:166-170 | an unknown or empty start is reported exactly where a cursor would have to be placed by it |
| `StoredSubscriptions.KnownGoesOn` | base/subscriptions.go:122-171 | a subscription that has read before hands over exactly the matches after the cursor that was stored, up to the one it leaves, whatever start is given |
| `StoredSubscriptions.NewStarts` | base/subscriptions.go:128-171 | one that has not hands over exactly the matches after what its start leaves out of the log at the call |
| `StoredSubscriptions.NewHandsOverWanted` | base/subscriptions.go:47-229 | a new one hands over exactly the events of the aggregate type, key and event types that the caller names, from there to its cursor |
| `StoredSubscriptions.HandsOverFields` | base/memory.go:379-387 | every event that a call hands over has the aggregate, type name, state, sequence, reference and time that are stored under its id |
| `StoredSubscriptions.FilterIsWanted` | base/subscriptions.go:69-98 | the filter of ids that a caller's names resolve to lets through exactly the events that the caller names, in both modes |
| `StoredSubscriptions.LocalHandsOverWanted` | base/subscriptions.go:240-357 | an ephemeral call too hands over exactly what the caller names from where the start says, each event with its stored fields |
| `StoredSubscriptions.DefinesColumns` | base/memory.go:254-282 | column by column, the upsert replaces what the caller gives, a known row keeps id, cursor and lease, and a new one starts at 0, active and free |
| `StoredSubscriptions.UpsertIsRegister` | base/memory.go:254-263 | the upsert of a known row is the registration of the machine of many runners |
| `StoredSubscriptions.InsertIsRegister` | base/memory.go:264-281 | the insert of a new row is that registration on a fresh subscription |
| `StoredSubscriptions.CallIsRun` | base/subscriptions.go:47-229 | so a whole call, from the rows before it, is a run of that machine that begins by registering |
| `StartPositions.StartsWhereItSays` | base/subscriptions.go:128-171 | a run of a row that has not read hands over exactly the matches after what the start leaves out: nothing, all that is there, ids up to a given one, or what comes before the first event at or after a time |
| `StartPositions.LocalStartsWhereItSays` | base/subscriptions.go:278-309 | the same of the ephemeral run, with the empty start as the beginning |
| `StartPositions.NothingBeforeStart` | base/subscriptions.go:149-162 | nothing from before its start is handed over if and only if the start is within reach of the log, that is no timestamp later than all its events, or no event that is already there matches as far as the run has come |
| `Turns.TurnExactly` | base/subscriptions.go:174-228 | a turn stops exactly for an inactive row or a handler that fails on events; otherwise it hands over the first batch of what is left, of the caller's size or 100, stores its last id, and holds the lease for the caller's length or 15 seconds |
| `Turns.ClaimExactly` | base/subscriptions.go:105-119 | so does a claim, which is refused exactly by a held or inactive row |
| `Turns.LocalTurnExactly` | base/subscriptions.go:311-357 | the same of a local turn, which passes over batches of which nothing is kept |
| `Turns.StopsInATurn` | base/subscriptions.go:174-228 | a loop that stops does so in one of its turns and nothing later changes the answer |
| `SubscriptionRuns.RoundAppends` | base/memory.go:241-245 | the events of a round are in the tables after it, in order, if what they refer to exists |
| `SubscriptionRuns.SeenLogsGrow` | evercoresqlite/sql/migrations/20240924024805_initial.sql:45-56 | from sound tables and while no key changes, the logs that rounds leave to the turns only grow, and stay as they are in rounds in which others do nothing |
| `SubscriptionTheorems.LogsGrew` | base/subscriptions.go:174-228 | so the logs that a coded run's turns saw grew from the log it started on to the log it left, on which the theorems about its batches rest |
| `SubscriptionTheorems.RoundsDecide` | base/subscriptions.go:174-228 | a run that was stopped gives what it would give if it went on: the tables it starts from and the rounds decide its batches, its outcome and its row |
| `SubscriptionTheorems.RoundsDecideLocally` | base/subscriptions.go:311-357 | the same of the ephemeral run |
| `SubscriptionTheorems.RunHandsOver` | base/subscriptions.go:105-229 | such a run is refused exactly by a held lease or an unknown start, and otherwise hands over exactly the matching events between its start and the stored cursor, each once and in order, while the log grows |
| `SubscriptionTheorems.RunCatchesUp` | base/subscriptions.go:174-228 | once the log rests, k rounds of a run that was not stopped hand over exactly the first k batches of what is left, and with enough rounds nothing is left |
| `SubscriptionTheorems.TurnWorksOff` | base/subscriptions.go:190-222 | each turn takes a whole batch off the backlog and the arrivals, or all of it |
| `SubscriptionTheorems.LoopKeepsUp` | base/subscriptions.go:174-228 | a runner whose log gets at most a batch of matching events a round never falls behind |
| `Subscriptions.RunLoop` | base/subscriptions.go:174-228 | the loop plays its rounds, each turn on the log that the rounds so far leave, until one stops it, with every way in which it ends, or until it is cancelled after the last |
| `Subscriptions.TakeTurn` | base/subscriptions.go:181-227 | one turn: what is read, when the cursor and the lease move, and that nothing moves when the handler fails |
| `Subscriptions.PlaceStoredCursor` | base/subscriptions.go:122-171 | only a cursor that is 0 is placed, and where |
| `EphemeralSubscriptions.RunEphemeralSubscription` | base/subscriptions.go:240-357 | its outcome and batches are those of the local run as `SubscriptionRuns.LocalAnswer` defines it, over exactly the logs that the rounds of other contexts leave to its turns; no stored row changes |
| `SubscriptionTheorems.LocalRunHandsOver` | base/subscriptions.go:240-357 | such a run refuses exactly unknown start kinds, and otherwise hands over exactly the part of its query that the names keep, up to its local cursor, in order and in non-empty batches |
| `SubscriptionTheorems.LocalRunCatchesUp` | base/subscriptions.go:311-357 | once the log rests, it hands over the first batches of its drain in order, and after as many rounds as its query has batches the whole drain, its cursor at the end |
| `SubscriptionTheorems.EphemeralDrainKeeps` | base/subscriptions.go:320-352 | the drain by name is the drain of the query with each batch filtered and the empty ones dropped |
| `SubscriptionTheorems.RunnersAgree` | base/subscriptions.go:240-357 | on a log at rest, a durable run of a subscription that has not read yet and an ephemeral run with the same filter and start hand over the same events in the same order, for any two batch sizes |
| `EngineRuns.RunnersAgreeOnEngine` | base/subscriptions.go:240-357 | so they do on an engine after any run of operations, whose maps of names and ids make the two filters mean the same |
| `EphemeralSubscriptions.RunLocalLoop` | base/subscriptions.go:311-357 | the local loop plays its rounds, each turn on the log that the rounds so far leave, until the handler fails or it is cancelled |
| `EphemeralSubscriptions.KeepByName` | base/subscriptions.go:336-347 | the loop over rendered events keeps what the filter on the log keeps |
| `MemoryEngine.MemoryStorageEngine.GetEventsForSubscription` | base/memory.go:348-394 | the early-exit scan returns the first matches after the cursor, at least one if there is one, each with the fields that are stored under its id |
| `EngineRuns.SavedIsHandedOver` | base/eventstore.go:139-164 | an event that a context saved reaches a subscription's handler with every field as it was published, its time or else the clock reading for it |
| `MemoryEngine.MemoryStorageEngine.ClaimSubscription` | base/memory.go:313-326 | claims exactly a lease that is free or ran out, and changes nothing else |
| `MemoryEngine.MemoryStorageEngine.RenewSubscription` | base/memory.go:328-336 | renews exactly the owner's lease |
| `MemoryEngine.MemoryStorageEngine.ReleaseSubscription` | base/memory.go:338-346 | releases exactly the owner's lease |
| `MemoryEngine.MemoryStorageEngine.UpsertSubscription` | base/memory.go:254-282 | an existing subscription keeps id, cursor and lease and gets the new definition; a new one starts at 0, active and free; no other row changes |
| `MemoryEngine.MemoryStorageEngine.AddSubscriptionEventType` | base/memory.go:284-292 | joined types only grow |
| `MemoryEngine.MemoryStorageEngine.AdvanceSubscriptionCursor` | base/memory.go:396-403 | writes the cursor whatever it was |
| `MemoryEngine.MemoryStorageEngine.ChangeAggregateNaturalKey` | base/memory.go:122-143 | the key index's change of key, nil pointer included: the new key leads to the aggregate, the old one is gone, all else stays |
| `MemoryEngine.MemoryStorageEngine.GetAggregateByKey` | base/memory.go:178-187 | in a consistent index, finds exactly the aggregate with this key and type |
| `MemoryEngine.MemoryStorageEngine.GetEventsForAggregate` | base/memory.go:222-239 | the aggregate's stored events above the sequence, in log order, with their type names |
| `EngineTables.ScanIsTheAnswer` | evercoresqlite/engine_subscriptions_raw.go:161-224 | for every positive limit the ids of the memory scan are the one answer that the SQL query over the event_log view has |
| `EngineTables.QueryReturnsTheScan` | evercoresqlite/engine_subscriptions_raw.go:169-224 | and the query returns for them, column by column and in the same order, what the scan returns, except for the reference |
| `EngineTables.ViewGrows` | evercoresqlite/sql/migrations/20240924024805_initial.sql:45-56 | new events, aggregates and types leave the view of the old events as it was |
| `EngineTables.NewNamesKeepTheLog` | base/memory.go:76-97 | on sound tables new type names change nothing that the log shows |
| `EngineRuns.RunsStaySound` | evercoresqlite/sql/migrations/20240924024805_initial.sql:9-43 | from a new engine on, after any run of lookups, creations, key changes and saves whose callers use ids that they were given and keys that are free, the foreign keys hold, keys are one-to-one, and names and ids correspond |
| `EngineRuns.EnginesReadAlike` | evercoresqlite/engine_subscriptions_raw.go:169-224 | after every such run the SQL query and the memory scan return the same but for the reference |
| `EngineRuns.Drive` | base/eventstore.go:139-164 | a new memory engine behind its store, driven through any operations, holds exactly what these leave, and the store's caches stay coherent |
| `NaturalKeys.ChangeKeyMoves` | base/memory.go:122-143 | what a change of key answers; the new key leads to the aggregate, its old key to nothing, and no other key, aggregate or type changes |
| `NaturalKeys.RekeyedIsFound` | base/memory.go:156-176 | get-or-create then finds the aggregate under its new key, and makes a new one of its old key |
| `NaturalKeys.CreatesExactly` | base/memory.go:99-176 | when a creation answers what, and that it adds the next id with its type and key and changes nothing else |
| `NaturalKeys.ChangeKeyExactly` | base/memory.go:122-143 | a key change keeps the index consistent exactly when the key was free or already its own |
| `NaturalKeys.RunKeepsConsistent` | base/memory.go:99-187 | every run that respects the uniqueness of keys keeps keys and keyed aggregates one-to-one and every id typed |
| `NaturalKeys.GetOrCreateFindsAgain` | base/memory.go:156-176 | after any such run that does not rekey it, get-or-create finds the same aggregate and creates nothing |
| `NaturalKeys.RunExtends` | base/memory.go:99-187 | unless a key changes, no run changes what the index says of an aggregate's type and key |
| `TypeNames.LookupsStayOneToOne` | base/memory.go:76-97 | after any run of lookups names and ids 1..count are in one-to-one correspondence and no answer changed |
| `EventStore.EventStore.GetEventTypeId` | base/eventstore.go:291-304 | with the cache in front a lookup has exactly the engine's effect and answer, and the cache stays coherent |
| `EventStore.EventStore.GetAggregateTypeId` | base/eventstore.go:274-286 | the same for aggregate types |
| `EventStore.EventStore.SaveState` | base/eventstore.go:139-164 | each event is stored after those that were there with the aggregate, type name, state, sequence and reference that it was given, and its time or else the clock reading; what any later load reads grows by exactly these |
| `Publishing.PublishedFieldsAreRead` | base/eventstore.go:139-164 | over any run of saved contexts, the k-th event read of an aggregate above a sequence has every field of the k-th published one, with the clock reading in place of a zero time and any other time kept |

## Left out

* The Postgres engine, which repeats the SQLite one, and the `withsqlc` variants, whose multi-type choice follows
  another specification.
* Visibility of ids out of order under a database's own concurrency; in-order visibility is an assumption above.
* Reflection and JSON: fields are a map from names to typed values with an abstract conversion, and encodings are
  abstract functions that decode what they encode.
* Integer width: ids, sequences and times are unbounded.
* Type caches under a SQL rollback: ids are cached before the commit, so cache coherence is claimed for the memory
  engine only, and `StreamTables` resolves type names against the table.
* Warmup, ReadonlyContext wrappers, migrations, connections, logging, owner naming, polling intervals and cancellation
  inside an engine call.
* Raw Publish, SaveSnapshot and SetSequence by callers, and objects that are loaded twice or kept between contexts.
* The pointer that GetSnapshotForAggregate returns into the engine's own slice.
* cmd/evercoregen and the examples.
- LoadIsFullReplay: asks that every commit of the run respects its due snapshots; where one does not, some snapshot
  loses its meaning (`StreamMeanings.SnapshotsMeanExactly`), though a later one may have it again.
- LoadAfterCommitExactly: exact for the commit that comes last; what was committed before it respects its due snapshots.
- RunSubscription: one runner at a time, with what others do between its turns given as a list of rounds that ends in
  a cancellation; the events of a round have types that are known when the run starts, and are left out whole if
  something they refer to does not exist; runners that overlap are the subject of `Delivery`, and `RunnerSteps` embeds
  the whole run there.
- RunEphemeralSubscription: a new subscription whose query is not joined to any stored types is the usual case; the
  contract also covers types joined under the id 0.
- ApplyState: the object's state after an error is left open, as CopyFields may have written some fields.
- CursorMonotone: the two disciplines are stated of the run, because the code leaves one to timing and the other to its
  callers; `LeaseSharpness` and `SharedNames` show that neither can be dropped.
- NamesExactly: leases are not negative, which the runners see to (base/subscriptions.go:61-63).
- RunsStaySound: a key change to a key that another aggregate has is left out, as the memory engine lets it through
  (`NaturalKeys.ChangeKeyExactly`).
- CodeIsRun: the coded run's own turns are not interrupted by other runners' engine calls, while the machine's are.
- AtLeastOnce: says nothing of events at or below the floor, the largest cursor that placing ever wrote.
- KeepingGoingCatchesUp: other runners' cursor writes are left out of the continuation, since a late one can undo the
  progress.
