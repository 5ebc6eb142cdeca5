# chtool rebuild: a verified model

chtool rebuilds a live ClickHouse aggregate table while inserts keep arriving. An orchestrator
creates a second table (`<target>_v2`), fixes a near-future boundary T, arms copies of the
materialized views for events from T on, backfills the events before T in hash-bucket chunks,
compares the two tables, and swaps them in a separate cutover. Progress goes to an append-only
log, so a run may die anywhere and be resumed.

This project models that protocol statement by statement and proves what it guarantees under
every interleaving of statements, source inserts, failures, crashes, resumes, aborts and
cutovers. It also models the SQL table that stores the log, the resolution of struct fields to
insert columns, the reading of view column blocks, the spec hash and the schema snapshot. A
function that many statements go through is also described without it: the default tuning by the
chunks of a run (`RunOnDefaults`), the checks of a run by what the spec and the server lack
(`RunIfReady`), the two struct walks by the routes that lead to a field (`Routes`), the drift report
by the two object lists (`Drifted`).

## How the protocol is modelled

* `Warehouse` is the server: sources are sequences of events, an aggregate table is a bag of rows
  "this event, counted once through this view", a view copies each inserted batch into the table
  it feeds. `GroupBy` in `Aggregates` merges the bag; `GroupByUnion` says that merging partial
  aggregates is aggregating the union, so counting on bags loses nothing.
* `Orchestrator` is one process: its spec, and the shared database, log, clock and a *script*.
  The script says before which statement which inserts arrive, how much time passes, and how the
  statement ends: `Applied`, `Lost` (error, no effect) or `Cut` (it took effect, but the caller sees
  an error or dies). Every contract holds for every script. `Smooth()` and `Undisturbed()` are
  scripts on which nothing fails, `Striking()` one that strikes the next chunk record; the methods
  also say what they achieve on those.
* `Attach` lets a process with another spec take over, which may supply other definitions and list
  other views. What a v2 table is built from is kept in the ghost `Book`: the definitions of the
  processes that ran into it (a run with the same hash and another list adds the views the table
  lacks, `Joined`), not those of the process at work. `Operate` runs any sequence of runs, aborts
  and cutovers, each with a spec of its own.
* The `Book` also records what no decision reads: the INSERTs applied to the present v2 table and
  what the source held at each, the chunk cursors already complete when the table was created
  (`base`), the INSERTs whose record was lost (`torn`), the rows from T on that no armed copy saw
  (`missed`), since when every copy has been in place (`armed`), whether a row before T came after
  lag-drain (`late`), the tuning changed (`retuned`) or a copy was there before the table and does
  not fit it (`stray`), and the worst lag of an event (`pace`).
* `Protocol.Inv` is the invariant. `Statements` proves it for each statement, each insert and each
  takeover, `Orchestrator` and `Operations` carry it through the loops of Run, Abort and Cutover.

The environment's duties that the code relies on are never assumed in the invariant. They are
counted in the `Book`, `Accounting` says exactly what follows from them, and the contract of `Run`
(`Ran` in `Progress`) says which runs leave each of them clear: a completed run tears no chunk and
any other at most one; nothing is missed if the copies were armed before T and no event was dated
ahead of the clock; no row is late if the sources lag no more than the poll interval; the tuning
counts as changed only if it was. `Operations.RunUntilDone` puts this together for any number of
runs that die and are resumed with the same options, `Operations.Rebuild` for these and a cutover.

## What the model found

Each of these is a theorem. Where a bullet names a method of `Witnesses`, that method also exhibits
it, starting from an empty log on a concrete server.

* **An abort or a cutover trusts the present list of views.** `Abort` drops the copies of the views
  that the spec lists now, then the v2 table; `Cutover` likewise renames it away. Neither compares
  the hash, and the hash of a spec built by a program does not cover the list. A copy is left
  without its table, and every insert into its source is refused from then on, exactly if it is
  the copy of a view that is no longer listed (`Abort`, `Cutover`, `UnlistedIff`,
  `InsertsAreAccepted`; `AbortForgetting`, `CutOverForgetting`). As long as no abort or cutover
  forgets a view, no view is ever left without its table (`Operate`). This is what the comment at
  `rebuild/abort.go:39-41` wants to rule out.
* **An abort does not reset the chunk records.** The boundary is looked up after the last abort
  (`rebuild/orchestrator.go:231-246`), the completed chunks are not
  (`rebuild/orchestrator.go:359-367`). A rebuild after an abort skips every chunk whose cursor
  comes up again, although its table is new, and reports success (`AbortThenRun`).
* **The two statements of a chunk.** A crash between a chunk's INSERT and its record repeats the
  chunk on resume. Each event is counted `1 + lost records` times (`HistoryCount`; `TornChunk`).
* **Changing the tuning between resumes.** A changed row target or bucket limit may change the bucket
  count of a chunk value, and with it all its cursors: rows already inserted are inserted again
  (`ChangedCountSpoils`; `ChangedCount`). A changed bucket key changes no cursor: the buckets that
  are done are skipped although they now hold other rows, so rows are repeated and lost at once
  (`ChangedKeyRepeatsAndLoses`). `RetunedIsExactIff` gives the exact condition, in terms of the log
  at the resume and of the views still listed, `SafeRetuning` what an operator can look up. In
  `Rekeyed` one of two events is counted twice and the other never, the `count()` validation
  agrees, and the run reports success.
* **Validation** catches any number of faults of one kind (`OneSidedFaultsAreCaught`); a loss and a
  repeat of the same measure cancel out (`OpposedFaultsCancel`).
* **A cutover whose record is lost** can be asked for again. The second one drops the live views and
  then fails at the RENAME (`CutOverAgain`). A cutover interrupted after its DROPs cannot be
  repeated while a view's definition has to come from the catalog (a clause of `Cutover`).
* **The same operation cannot rebuild twice.** After a cutover its boundary and chunk records are still
  in force: run again, it arms at the old T, skips every recorded chunk, and a second cutover puts a
  table without that history in place, every step reporting success (`RebuildAgain`). Another
  operation can, if it cuts over on another day: on the same UTC day the name of the backup is
  taken, and the cutover drops the live views before it fails (`TwoRebuilds`).
* **A cutover does not look at the spec's hash.** If the spec is edited after validation, it recreates
  views that are not the ones the table was built from (`CutOverEdited`).
* **After a recorded cutover a changed spec is stuck**: its run is told to abort first, and its abort
  is refused because of the cutover (`Operate`).
* **The hash of a spec built by a program** covers name, target and definitions only; validations, the
  list of views, the boundary column and the tuning can change unnoticed. `GuardOverlooks` says
  what a changed list does to the next run, abort and cutover.
* **`buckets`** returns a negative `max_buckets` as it is, and then no chunk is inserted at all
  (`NegativeLimit`); a quotient of 2^63 or more yields one bucket (`BucketsIsClampedCeiling`).
* **Cursors** of two views collide, for some chunk values, exactly when one name ends in `|` followed
  by the other and count and bucket agree (`CursorsCollideIff`); two chunks of the same view have
  the same cursor exactly when they differ in nothing but the bucket expression (`SameCursorIff`).
* **A store that is already in use** does not check its table when it is declared the caller's
  afterwards (`DeclaredLate`); declared in time, a table that does not meet the contract is never used,
  however often it is tried (`Drive`).
* **Snapshots** read back exactly when every object is `Proper` (`RoundTrip`); the comment at
  `schema/snapshot.go:87` promises it for Render output without a condition.

## Model

| member | source | states |
|---|---|---|
| Warehouse.Insert | rebuild/mv.go:89-95 | an insert reaches its source and, through each view on it, exactly the rows that view selects; it is refused as a whole if a view's table is gone |
| Warehouse.FiredSplit | rebuild/mv.go:91-95 | the order in which views fire does not matter |
| Statements.ArrivalKeepsInv | rebuild/orchestrator.go:166-184 | an insert at any moment keeps the whole invariant; what no armed copy captures is exactly what is booked as missed |
| Statements.ChunkKeepsInv | rebuild/mv.go:101-112 | one backfill INSERT, entered with what the source held and as not yet recorded, keeps the invariant: v2 holds each earlier event as often as the INSERTs that copied it found it |
| Statements.AppendKeepsInv | rebuild/orchestrator.go:115-120 | an admissible record keeps the invariant: boundary, completed chunks and log shape stay consistent with the tables |
| Statements.AppendAbortKeepsInv | rebuild/abort.go:50 | the aborted record is admissible once no v2 object is left |
| Statements.CreateKeepsInv | rebuild/orchestrator.go:153-161 | creating v2, new or existing, keeps the invariant and makes the table the caller's; a new one starts with the already completed cursors booked as carried over |
| Statements.JoinKeepsInv | rebuild/orchestrator.go:153-161 | coming to a table that is being filled with another list keeps the invariant: the views it lacks are added, and what their copies can no longer see is booked as missed |
| Statements.RenameKeepsInv | rebuild/cutover.go:54-58 | the swap keeps the invariant, whichever copies are still there |
| Statements.OnlyCopiesDangle | rebuild/abort.go:39-49 | in every reachable state each view has its table if and only if the v2 table is there or no view writes to it |
| Statements.InsertsAreAccepted | rebuild/abort.go:39-49 | in every reachable state an insert into a known source is refused if and only if a copy on that source is left and the v2 table is gone |
| Statements.AttachKeepsInv | rebuild/orchestrator.go:217-227 | the invariant holds for the next process whatever views its spec lists and whatever definitions it supplies, also while copies of the old ones are armed |
| Orchestrators.Orchestrator.constructor | rebuild/orchestrator.go:39-50 | a rebuild that has not started, with an empty log and no v2 object, satisfies the invariant |
| Orchestrators.Orchestrator.Attach | rebuild/orchestrator.go:39-50 | a process with another spec, which may list other views, takes over the same server and log, with the invariant |
| Journal.BoundaryFrom | rebuild/orchestrator.go:229-246 | the loops return the first readable boundary after the last abort, or say that there is none |
| Journal.BoundaryReadsBack | rebuild/orchestrator.go:172-173 | a persisted boundary reads back as the same whole second |
| Journal.CompletedChunks | rebuild/orchestrator.go:359-367 | exactly the cursors of the done backfill records, aborts notwithstanding |
| Journal.ShapeByIndex | rebuild/orchestrator.go:217-227 | in every reachable log, under changing specs, a cutover directly follows a validated record, an aborted record never follows a cutover, the hash changes only at an aborted or cutover record, and every validated record has its epoch's boundary and lag-drained records before it |
| Journal.OneBoundaryPerEpoch | rebuild/orchestrator.go:166-176 | between two boundary records there is an abort |
| Chunks.CursorInjective | rebuild/orchestrator.go:352-357 | a cursor determines chunk value, view, bucket count and bucket, for names that are not confusable |
| Chunks.SameCursorIff | rebuild/orchestrator.go:308-318 | two chunks have the same cursor if and only if they agree in all but the bucket expression |
| Chunks.BarFreeNamesAreSafe | rebuild/orchestrator.go:352-357 | a name without a bar is never confusable |
| Chunks.CursorsCollideIff | rebuild/orchestrator.go:352-357 | chunks of two different views can share a cursor if and only if count and bucket are the same and one name ends in a bar and the other name |
| Limits.BucketsIsClampedCeiling | rebuild/limits.go:165-177 | the bucket count is the ceiling of rows / target clamped to [1, max] if and only if that ceiling is below 2^63 or max is at most 1 |
| Limits.Buckets | rebuild/limits.go:165-177 | between 1 and max for a usable max; equal to max otherwise |
| Limits.EffectiveIsFirstSet | rebuild/limits.go:20-57 | each field of the effective tuning is the first that is set of the caller's, the spec's and the default: 50 million rows and 256 chunks |
| Limits.RunSplits | rebuild/limits.go:165-177 | a chunk value is split into the least number of chunks within the row target in force, or the limit in force if that is less |
| Limits.Config.Merge | rebuild/limits.go:36-57 | each positive or non-empty field of the override wins, and an empty override changes nothing |
| Limits.EffectiveIsStable | rebuild/limits.go:20-57 | giving the effective tuning back as the override, or filling in the defaults early, changes nothing; without a negative override only the spec can make the bucket limit unusable |
| Aggregates.ChunksPartition | rebuild/orchestrator.go:299-316 | the chunks of a full plan, in any order, write exactly the rows before T, each once |
| Aggregates.ChunkedGroupBy | rebuild/orchestrator.go:299-316 | merging the per-chunk aggregates in any order equals one aggregation of the whole history |
| Aggregates.GroupByUnion | rebuild/mv.go:101-112 | merging two partial aggregates is aggregating the union |
| Aggregates.TotalOfGroups | rebuild/orchestrator.go:369-386 | the grand total does not depend on the grouping key |
| Accounting.HistoryCount | rebuild/orchestrator.go:310-322 | after a completed backfill each event before T is counted once, plus once per lost record, minus once if its record predates the table |
| Accounting.BackfillAtMost | rebuild/orchestrator.go:316-321 | with late rows too, each earlier event is counted at most once per INSERT that copied it |
| Accounting.SuffixIsThePlan | rebuild/orchestrator.go:299-324 | a completed run inserted exactly the chunks planned under its tuning whose cursor the log did not show, each once |
| Accounting.SuffixCopies | rebuild/orchestrator.go:310-318 | a completed run copied each historical event once, unless the log showed its own cursor under the run's tuning as done, then never |
| Accounting.ResumeIsExactIff | rebuild/orchestrator.go:279-326 | whatever earlier runs did and whichever tuning they used: after a completed run v2 is right if and only if nothing from T on was missed and, for each earlier event, the copies made before plus one if its own cursor was not in the log make one |
| Accounting.FirstRunIsExactIff | rebuild/orchestrator.go:122-215 | on a table and log without chunks a completed run leaves v2 right if and only if nothing from T on was missed |
| Accounting.RetunedIsExactIff | rebuild/orchestrator.go:295-314 | resuming a clean table under another tuning or list of views: v2 comes out right if and only if nothing was missed and each earlier event's cursor under the old tuning is in the log exactly if its new one is or its view is no longer listed |
| Accounting.RetunedCount | rebuild/orchestrator.go:295-314 | the count of each earlier event after such a resume: once, twice or never, by the same two cursors |
| Accounting.SafeRetuning | rebuild/orchestrator.go:295-314 | if of each chunk value nothing was inserted yet or both tunings split it alike, changing the tuning does no harm |
| Accounting.ChangedCountSpoils | rebuild/orchestrator.go:308-313 | under a changed bucket count each row of the chunk value that was inserted is counted twice |
| Accounting.RekeyedIsExactIff | rebuild/orchestrator.go:308-318 | a changed bucket key is harmless if and only if no event moves between a bucket that is done and one that is not |
| Accounting.ChangedKeyRepeatsAndLoses | rebuild/orchestrator.go:308-318 | under a changed key an event whose old bucket is done and whose new one is not is counted twice, and one the other way round never |
| Accounting.ChunksNeedBuckets | rebuild/limits.go:165-177 | a run with a bucket limit below one inserts nothing |
| Accounting.OneRunCopiesAtMostOnce | rebuild/orchestrator.go:299-324 | a table built by one completed run counts no event too often, however late rows arrive |
| Accounting.ExactlyOnce | rebuild/orchestrator.go:122-215 | after a completed backfill under one tuning v2 counts every source event exactly once per view if and only if no event from T on was missed and every event's chunk ran into this table once |
| Accounting.FaultFreeIsExact | rebuild/orchestrator.go:122-215 | copies armed in time, no lost record and no carried-over chunk give an exact v2 |
| Accounting.CarriedOverChunkIsLost | rebuild/orchestrator.go:359-367 | a chunk recorded before the table was created is skipped: its events are absent and v2 is wrong |
| Accounting.OverlappingChunksSpoil | rebuild/orchestrator.go:308-313 | two applied INSERTs that both copy an event make v2 wrong |
| Accounting.LossesOnly | rebuild/orchestrator.go:166-184 | if no event was copied twice, v2 is a sub-bag of the true contributions, with missed, late and skipped rows |
| Accounting.RepeatsOnly | rebuild/orchestrator.go:316-321 | if nothing was missed or late and every event was copied, v2 is a super-bag of them |
| Accounting.FaultsBySide | rebuild/orchestrator.go:310-322 | under one tuning, losses come without lost records and repeats without carried-over chunks |
| Accounting.OneSidedFaultsAreCaught | rebuild/orchestrator.go:369-386 | with faults of one kind only, agreement on the sum of a strictly positive measure means v2 is exact |
| Accounting.OpposedFaultsCancel | rebuild/orchestrator.go:369-386 | a table with one row lost and another of the same measure repeated agrees in the sum and is wrong |
| Chunks.DetailIsShare | rebuild/orchestrator.go:319-321 | the detail recorded with a chunk is an even share of the rows: no more than there are, less than one row per chunk left over |
| Accounting.PlannedIsRecorded | rebuild/orchestrator.go:310-314 | after a completed backfill every chunk of the plan is among the recorded ones |
| Progress.RecordedPlanIsNotRepeated | rebuild/orchestrator.go:310-314 | a run over a fully recorded plan with the same tuning issues no INSERT |
| Progress.RetunedRunIsExactIff | rebuild/orchestrator.go:122-215 | the same condition for a run resumed under another tuning, from its contract |
| Progress.FirstRunIsClean | rebuild/orchestrator.go:316-321 | a first run that tore no chunk leaves a clean table wherever it ended |
| Statements.NothingMissedYet | rebuild/orchestrator.go:166-184 | while the clock has not reached T and no event was dated ahead of it, nothing is missed |
| Progress.PunctualIsNotLate | rebuild/orchestrator.go:186-198 | no row is late while no source lags more than the time lag-drain left after T |
| Orchestrators.Orchestrator.DistinctSources | rebuild/orchestrator.go:103-113 | each source of a definition once, and no other |
| Orchestrators.Orchestrator.LoadMVs | rebuild/orchestrator.go:65-88 | success gives the true definition of each listed view in order, from the spec or the catalog; without failures it succeeds when all can be had |
| Orchestrators.Orchestrator.Prepare | rebuild/orchestrator.go:129-157 | an invalid or changed spec, or a definition that cannot be had or whose columns the source lacks, is refused with nothing changed; without failures nothing else is |
| Orchestrators.Orchestrator.StartV2 | rebuild/orchestrator.go:158-164 | v2 exists and is recorded; an existing v2 keeps its contents and history |
| Orchestrators.Orchestrator.FixBoundary | rebuild/orchestrator.go:166-176 | the run's T is the one in the log afterwards: the recorded one, or a new whole-second one persisted first |
| Orchestrators.Orchestrator.ArmAll | rebuild/orchestrator.go:178-184 | every listed view has its copy, and the log and the backfill are untouched |
| Orchestrators.Orchestrator.DrainLag | rebuild/orchestrator.go:248-272 | success means that between the two polls, at least the poll interval apart, no row before T reached any listed source |
| Orchestrators.Orchestrator.Settle | rebuild/orchestrator.go:186-198 | lag-drain is recorded only after T plus the poll interval has passed and the sources were quiet; without a disturbance exactly then |
| Orchestrators.Orchestrator.ChunkValues | rebuild/orchestrator.go:328-350 | the distinct chunk values of the rows before T, in falling order, and no other |
| Ordering.DecimalsInOrder | rebuild/orchestrator.go:328-350 | that order is numerical, for days of fixed width the order of time, so the newest comes first |
| Orchestrators.Orchestrator.BackfillChunk | rebuild/orchestrator.go:316-321 | at most this chunk is inserted and at most its cursor recorded; success means both |
| Orchestrators.Orchestrator.BackfillUnit | rebuild/orchestrator.go:301-322 | success records every bucket of this value and view, only chunks of this unit are inserted, and no INSERT loses its record |
| Orchestrators.Orchestrator.Backfill | rebuild/orchestrator.go:279-326 | what is inserted are chunks of the plan under this run's tuning that the log did not show, each once; success records all of the plan and tears nothing, an error tears at most one chunk; the newest values come first, wherever it ends |
| Orchestrators.Orchestrator.Validate | rebuild/orchestrator.go:369-386 | without inserts in between, success means that every expression agrees on both tables; without failures it succeeds exactly then |
| Orchestrators.Orchestrator.Conclude | rebuild/orchestrator.go:205-212 | the validated record follows agreement only; on a smooth script a mismatch leaves validation_failed as the last phase |
| Orchestrators.Orchestrator.Run | rebuild/orchestrator.go:122-215 | at every end, crash or not: the invariant, the boundary, the completed chunks and all other tables and views are kept, only chunks not on record are inserted, at most one is torn; a completed backfill satisfies Resumed with exactly stated torn, missed, late, base and tuning; on a smooth script it succeeds exactly when validation agrees |
| Operations.RunIfReady | rebuild/orchestrator.go:125-157 | a run is refused with nothing changed if the spec lacks a field or supplies a definition it does not list, the log has another hash, a definition cannot be had or a column it mentions is missing; undisturbed, in no other case |
| Operations.RunOnDefaults | rebuild/orchestrator.go:29-37 | with nothing set: T is the whole second ten minutes on, lag-drain is recorded a minute after T, and each chunk value is split by the hash of the GROUP BY keys into the least number of chunks of 50 million rows, 256 at most |
| Operations.RunChecked | rebuild/orchestrator.go:369-386 | success means equal answers of old and new table to each validation, undisturbed failure that one differs; with a correct old table and a validation that shows a positive sum, success means an exact v2 unless there were faults of both kinds |
| Operations.TearDown | rebuild/abort.go:39-49 | the copies of the listed views go before the table, only v2 objects are dropped, and the copies left are exactly those the spec does not list |
| Operations.UnlistedIff | rebuild/abort.go:39-46 | no copy is left out if and only if every view that v2 is built from and that has a copy is listed |
| Operations.Abort | rebuild/abort.go:27-53 | whoever built the table: refused after a cutover with nothing changed; otherwise success drops the v2 table and the listed copies, aborted is recorded only then, and a view is left without its table if and only if a copy's view is not listed; however it ends, live views and target table stay |
| Operations.Swap | rebuild/cutover.go:54-58 | the RENAME happens with no listed view and no copy of one in place, completely or not at all |
| Operations.Cutover | rebuild/cutover.go:9-69 | gated on guard, validated phase and available definitions, not on the hash; at every point both tables' contents exist under the old or the new names; success leaves the old target as backup, v2 as target and this spec's views, and a view without its table if and only if a copy's view is not listed; an exact v2 with stopped writers gives a target that counts by the definitions v2 was built from, which are the recreated ones if hash and list are the validated ones |
| Protocol.BackupsDiffer | rebuild/spec.go:168-171 | two cutovers give their backups the same name if and only if they are on the same day |
| Operations.ValidatedIsMine | rebuild/cutover.go:22-32 | a process with the hash of the validated record has the definitions v2 was built from, as far as it lists them |
| Operations.CutoverTwice | rebuild/cutover.go:65 | if the script loses only the cutover record, the first cutover succeeds, and a second one drops the live views and fails |
| Operations.CutoverIsExact | rebuild/cutover.go:43-65 | cutting over an exact v2 with the writers stopped makes the target the aggregate of all source events by the definitions v2 was built from and the backup the old target; it stays exact if those are recreated |
| Operations.InsertKeepsLiveExact | rebuild/cutover.go:59-63 | every later insert keeps the target exact |
| Operations.ExactForever | rebuild/cutover.go:59-63 | so does every sequence of inserts |
| Operations.FirstRunIsExact | rebuild/orchestrator.go:166-198 | a first run leaves v2 exact if no event was dated ahead, the copies were armed before T, no event lagged more than the poll interval and the bucket limit is usable; in any environment without late rows v2 is exact if and only if nothing was missed, and without inserts if and only if no event from T on was there |
| Operations.StillUnderway | rebuild/orchestrator.go:122-125 | what one attempt leaves is a state the next one with the same options can go on from: nothing carried over, one tuning, lag-drain at least the poll interval after T |
| Operations.RunUntilDone | rebuild/orchestrator.go:122-125 | any number of attempts with the same options, dying anywhere, with inserts arriving throughout: if the last one completed its backfill, under the same conditions and with no chunk's record lost, v2 is exact |
| Operations.Rebuild | rebuild/cutover.go:9-14 | such attempts and a cutover with the writers stopped: the target ends exact and stays exact |
| Operations.Operate | rebuild/orchestrator.go:122-125 | every sequence of runs, aborts and cutovers, each with a spec of its own and dying anywhere, keeps the invariant and only appends to the log; after a recorded cutover no operation of a changed spec changes the log; no view is ever left without its table if every abort and cutover lists each view that has a copy or that a run arms |
| Operations.ReachableStates | rebuild/orchestrator.go:166-184 | in every reachable state each view's table exists or is the v2 table; unless a misfit copy was there before the table, each view that writes to it is the copy of a view it is built from and carries the log's T and that definition, which is the current one while the log's last hash is, and from T on v2 never counts too much |
| StateStore.InOrderReadsBack | rebuild/state.go:56-63 | appends whose keys rise are read back in append order from any layout |
| StateStore.ReadsBackIff | rebuild/state.go:28-32 | reading back gives the append order from every layout if and only if the keys rise or the rows are identical |
| StateStore.ClockGivesOrder | rebuild/state.go:103-107 | a clock that never goes back within a store and is later across stores makes the keys rise |
| StateStore.EqualStampsRewind | rebuild/state.go:103-107 | with equal stamps across two stores the log is not in order, as seq restarts |
| StateStore.SortedRowsAreTheLog | rebuild/state.go:304-325 | whatever the layout, one operation's rows sorted by (ts, seq) are its log |
| StateStore.SQLStore.Ensure | rebuild/state.go:113-155 | a caller-owned table is never created, only checked; the work counts as done if and only if it succeeded, and is not repeated then |
| StateStore.SQLStore.UseExistingTable | rebuild/state.go:108-111 | a declared table is vetted before use if and only if the store was not in use yet or the table meets the contract anyway |
| StateStore.Drive | rebuild/state.go:113-155 | over any calls on one store: a table declared in time that does not meet the contract takes no record and gives none; on a table of its own the store goes on after any failures |
| StateStore.DeclaredLate | rebuild/state.go:108-124 | declared when the store is in use, a table that does not meet the contract takes records |
| StateStore.SQLStore.Append | rebuild/state.go:292-302 | one record is added to its operation's log or nothing is; seq rises even when the insert fails |
| StateStore.SQLStore.Records | rebuild/state.go:304-325 | returns exactly the operation's records in append order, if the clock rises as `ClockRises` says; without failures it succeeds exactly when the table is usable |
| StateStore.Sessions | rebuild/state.go:103-107 | any number of stores one after another: with a rising clock the table stays readable in append order |
| Columns.WalksAgree | structs/structs.go:300-456 | a successful column walk lists exactly the tagged entries of the driver's walk, same fields, same order |
| Routes.WrittenIff | structs/structs.go:426-456 | the driver writes a column from a field if and only if a route of embedded structs leads to it, and the field is exported and not skipped: under its tag, or untagged under its Go name |
| Routes.ResolvesIff | structs/structs.go:300-381 | the column walk succeeds on a struct if and only if no route, through embedded pointers too, leads to a field that cannot be written as declared |
| Routes.ShadowingIff | structs/structs.go:408-424 | the shadowing check fails if and only if an exported field further down, tagged or not, claims a listed name |
| Routes.UntaggedShadows | structs/structs.go:408-412 | an untagged exported field below a tagged one, named as its column, makes the type rejected as shadowed |
| Routes.AcceptedIff | structs/structs.go:278-298 | a type is accepted if and only if no route leads to trouble, some tagged field is filled and none is overtaken; and which of the checks reports a type that is not |
| Routes.AcceptedColumns | structs/structs.go:278-298 | accepted columns are exactly the tagged fields the driver fills, in declaration order, filled from these fields, with distinct names, and read back as written |
| ColumnWalks.ResolveColumns | structs/structs.go:300-381 | the walk with its shared path terminates on cyclic types, restores the path and gives the specified columns or first problem |
| ColumnWalks.DriverIndex | structs/structs.go:426-456 | the index ends as the replay of all writes, later ones winning |
| ColumnWalks.CheckDuplicates | structs/structs.go:458-467 | passes exactly when names are distinct |
| ColumnWalks.CheckShadowing | structs/structs.go:408-424 | passes exactly when every column's name is bound to its own field; for a resolved type, exactly when no exported field further down claims one |
| ColumnWalks.Planner.ColumnsFor | structs/structs.go:278-298 | cached or not, the result is the uncached one, and every cache entry stays so |
| ColumnWalks.Planner.InsertPlan | structs/structs.go:73-96 | cached or not, the plan is the uncached one for its type and table |
| ColumnWalks.PlanMeaning | structs/structs.go:73-96 | a plan without error names exactly the columns the driver fills and will be read back so |
| ColumnList.InsertQuery | structs/structs.go:175-201 | the builder writes the specified statement |
| ColumnList.DriverNames | structs/structs.go:140-144 | splitting, trimming and unquoting in place gives the specified names |
| ColumnList.ListRoundTrip | structs/structs.go:147-160 | the driver reads back the list as written if and only if no name has a comma or a backtick |
| ColumnList.GoodNamesRoundTrip | structs/structs.go:383-406 | every list of names accepted by checkName reads back |
| ColumnList.GoodNameIff | structs/structs.go:383-406 | checkName accepts a name if and only if the driver reads it back from the list and the server from the quoted identifier |
| ColumnList.AnyQuotes | structs/structs.go:140-144 | a name comes back bare, in double quotes or in backticks, with any white space around it |
| ColumnList.ListIsFound | structs/structs.go:120-126 | the driver's last expression finds table and list in the written statement if and only if no name has white space before an opening parenthesis |
| ViewColumns.SplitTopLevel | rebuild/mv.go:173-190 | the pieces rejoin to the input, have no top-level comma, and all but the last are balanced |
| ViewColumns.TopSplitUnique | rebuild/mv.go:173-190 | there is only one such split |
| ViewColumns.ColumnNames | rebuild/mv.go:160-171 | the first word of each non-blank piece, unquoted, in order |
| ViewColumns.RenderedNames | rebuild/mv.go:97-108 | for a rendered column block the names come back in order, whatever commas and parentheses the types have and however it is laid out |
| ViewColumns.TypedColumnIsProper | rebuild/mv.go:173-190 | a column of any type built from words and arguments in parentheses is a piece of its own |
| ViewColumns.EscapedLiteral | rebuild/mv.go:13-19 | a quoted value lexes back to itself and the literal ends where meant |
| SpecHash.PreimageInjective | rebuild/spec.go:114-129 | the hashed text determines base, table definition and all view definitions, for loaded and for built specs, and tells the two apart |
| SpecHash.ChangeIsNoticed | rebuild/spec.go:114-116 | with a collision-free hash the guard notices a change exactly when there is one |
| SpecHash.Spec.SumHash | rebuild/spec.go:117-129 | the loop hashes the canonical text for any base |
| SpecHash.Spec.Load | rebuild/spec.go:76-91 | a loaded spec carries the hash of its raw file and definitions |
| SpecHash.Spec.SetNewDDL | rebuild/spec.go:94-100 | sets the definition and leaves the hash current |
| SpecHash.Spec.SetMVDDL | rebuild/spec.go:102-112 | sets one view definition and leaves the hash current |
| SpecHash.Configure | rebuild/spec.go:94-112 | after any sequence of setter calls the hash is that of the content |
| SpecHash.CurrentHashTells | rebuild/spec.go:94-129 | two built specs with current hashes have equal ones if and only if name, target and all definitions are equal |
| SpecHash.SettersCommute | rebuild/spec.go:114-116 | the order of SetMVDDL calls for different views does not matter |
| SpecIdentity.EqualHashEqualSource | rebuild/spec.go:114-129 | with a collision-free hash, equal hashes mean equal sources and so equal definitions |
| SpecIdentity.HashTellsDefinitions | rebuild/orchestrator.go:217-227 | so a table begun under one spec is continued only with the same supplied definitions |
| SpecIdentity.GuardNoticesChange | rebuild/orchestrator.go:217-227 | the guard lets a run continue if and only if the hashed content is unchanged |
| SpecIdentity.GuardOverlooks | rebuild/spec.go:94-112 | of a built spec, validations, views, boundary column and tuning can change unnoticed; with another list a run adds its views to the table, and an abort or cutover leaves a copy dangling if and only if a view that has one is no longer listed |
| Witnesses.AbortThenRun | rebuild/orchestrator.go:359-367 | run, abort, run on a smooth script: the second run succeeds without the event that the first one had recorded |
| Witnesses.TornChunk | rebuild/orchestrator.go:316-321 | a run that dies between a chunk's INSERT and its record, resumed with the same options, succeeds and counts the event twice |
| Witnesses.ChangedCount | rebuild/orchestrator.go:308-313 | a completed run and one with a smaller row target: both events are counted twice and the run succeeds |
| Witnesses.AbortForgetting | rebuild/abort.go:39-49 | two views armed, then an abort under a spec that lists one: it succeeds, and an insert into the source is refused |
| Witnesses.CutOverForgetting | rebuild/cutover.go:43-58 | the same with a cutover |
| Witnesses.CutOverAgain | rebuild/cutover.go:65 | a lost cutover record and a second cutover leave the target without its view |
| Witnesses.CutOverEdited | rebuild/cutover.go:15-37 | a cutover under an edited spec recreates another view; afterwards the old spec can neither run nor abort |
| Witnesses.AbortEdited | rebuild/orchestrator.go:217-227 | under an edited spec the run is refused, the abort clears the old copies, and the next run builds from the new definition |
| Witnesses.NegativeLimit | rebuild/limits.go:165-177 | with a negative limit the run succeeds and copies nothing |
| Witnesses.Rekeyed | rebuild/orchestrator.go:308-318 | a run cut after one bucket and resumed under another key counts one event twice and the other never; count() agrees and the run succeeds |
| Witnesses.DieAndResume | rebuild/orchestrator.go:122-125 | a run cut after one bucket and resumed with the same options leaves v2 exact |
| Witnesses.TwoRebuilds | rebuild/cutover.go:43-58 | two undisturbed rebuilds of one table: cut over on different days both succeed and both old tables are kept; on the same day the second fails with the views dropped |
| Witnesses.RebuildAgain | rebuild/orchestrator.go:229-246 | one operation run and cut over twice: every step succeeds and the live table has lost the event |
| Witnesses.GoodRebuild | rebuild/cutover.go:9-14 | a smooth first run and cutover leave an exact target |
| Snapshot.Render | schema/snapshot.go:73-85 | the builder writes the specified text |
| Snapshot.Parse | schema/snapshot.go:87-117 | the line loop computes the specified objects |
| Snapshot.MarkerReadsBack | schema/snapshot.go:119-129 | a name marker reads back as name and kind, even if the name has parentheses |
| Snapshot.BareMarker | schema/snapshot.go:119-129 | a marker without a kind names a table |
| Snapshot.FinalNewlineIsOptional | schema/snapshot.go:100-117 | a file without its final newline reads the same |
| Snapshot.RoundTrip | schema/snapshot.go:73-117 | parsing a rendered snapshot gives the objects back if and only if every object is proper |
| Snapshot.Diff | schema/snapshot.go:131-166 | one line, in name order, for each name not ignored: missing if only the schema has it, untracked if only the server has, differing if the last objects of that name have different statements |
| Snapshot.NoDriftAfterRoundTrip | schema/snapshot.go:131-166 | a proper snapshot written, read back and compared shows no drift |

## Left out

* Orchestrators.Orchestrator.Run: `Plan`, logging, the RAM and read-only-setting probes and the settings clause are left out.
* Orchestrators.Orchestrator.Attach: the next spec names the same target table and the same boundary and chunk columns; an event has one time and one chunk value. Which of these a built spec may change unnoticed is said by `GuardOverlooks`.
* Orchestrators.Orchestrator.DrainLag: says nothing of rows that arrive after the second poll; `late` and the lag in `pace` record them.
* Operations.Cutover: exactness is stated for cutovers during which no insert arrives, as the operator checklist at `rebuild/cutover.go:39-41` demands.
* Journal.BoundaryReadsBack: T is written as decimal seconds instead of the calendar layout.
* Limits.Buckets: row counts and targets are naturals; the conversion to a signed 64-bit integer is modelled, the memory fraction is not.
* StateStore.SQLStore.Ensure: the column checks of a caller-owned table are one flag, and the wrap-around of seq after 2^64 appends is not modelled.
* ColumnWalks.Planner.InsertPlan: the driver's regular expressions are a parameter that finds the list in a statement; which problem is reported for an unreadable list is not modelled.
* ColumnWalks.ResolveColumns: a field's path is kept as a list of names instead of a dotted string, and Go and `chtype` types are not carried; which of several problems a type has is reported first is said by the walk alone.
* ViewColumns.EscapedLiteral: the lexer knows only the two escapes that `esc` writes.
* SpecHash.PreimageInjective: asks that the hashed texts hold no NUL, which a YAML file and SQL text do not; the hash function is a parameter.
* Snapshot.Parse: the scanner's limit of 8 MB per line is not modelled, nor are `Dump`, `Normalize` and the object order of a dump.
* SQL text: a statement is an operation on tables, views and filters, atomic on its own; an insert fires its views atomically with it. Parsing view definitions and retargeting the new DDL are given (`NewDef`, `retargets`).
* Rows of an aggregate table are tagged with the view's name; one table never mixes two definitions of a view before a cutover, and what an edited spec does to the target after it is stated by definitions (`ExactAfter`).
* The views that any spec of the operation lists are taken to feed the real target under their own names, and no name to be the armed name of another, as the comments at `rebuild/spec.go:34-43` ask (`SameTarget`, `Setting.Sound`, `LiveAt`).
* A v2 table created while a copy that does not fit it is still there (`stray`) is not accounted for row by row; what is proved of it are the log, the definitions and the dangling copies.
* Two orchestrators driving one operation at once, which `rebuild/state.go:34-37` declares unsupported.
* A chunk column holding NULL, and tables and views that share a name.
* `migrate`, `schema/lint.go`, the driver, TLS and DSN code, containers, `Status` and the `structs` batch verification.
