# Verified model of WrongStack's stateful components

A Dafny project that models the in-memory logic of the WrongStack command line, its HQ server and its
benchmark runner, and proves what their code keeps, over every input and every run. `dafny verify
dfyconfig.toml` checks it all.

Where the source changes state step by step the model does too: classes with the same variables and
handlers, loops with the same exits, arrays and shared objects updated in place. Each such method is
proved equal to a function of the old state, and the theorems are about those functions.

| component | modules |
|---|---|
| HQ server: command queues, snapshot broadcaster, aggregation, transcript rings | `HqCommands`, `HqServer`, `HqTelemetry`, `HqSnapshot`, `HqConservation`, `HqCounts`, `HqPlaces`, `TranscriptRings` |
| dashboard: merging streamed tool results | `TranscriptMerge` |
| benchmark: worker pool, config, metrics, report | `WorkerPool`, `BenchConfig`, `BenchReport`, `BenchRows` |
| configuration history and backups | `ConfigHistory`, `ConfigBackups` |
| configuration doctor | `ConfigRepair`, `ConfigDoctor`, `DoctorSections`, `DoctorTheorems`, `DoctorValidity`, `DoctorValues`, `DoctorFindings`, `DoctorLimits`, `DoctorSaved` |
| pickers and fleet status line | `Picker`, `LivePicker`, `PickerKeys`, `PickerView`, `FleetLine`, `FleetText`, `FleetStatusLine`, `FleetEvents` |
| argument parser, plugin list, key store | `ArgParser`, `ArgForms`, `PluginList`, `KeyStore` |
| shared vocabulary: insertion-ordered maps, stable sorting, counting, JSON | `Prelude`, `OrderedMap`, `Sorting`, `Counting`, `Json` |

Conventions: a JavaScript `Map` is a sequence of pairs with distinct keys; costs and benchmark numbers
are reals; times are integers handed to each step; ids come from outside and are fresh; locale
comparisons, `Number(text)`, case folding in the doctor, secret-field tests and a plugin's sub-schemas are
parameters, so the theorems hold whatever they are. SGR colour codes are those of section 8.3.117 of ECMA-48.

## Where the code and its documentation differ

The model follows the code. Each point names the member that states it.

- Command polls are documented to resume after a cursor, but the frame parser drops the cursor, so the queue
  is sent again (`HqCommands.ParsedPollsRepeat`). The handler itself delivers in order and never twice.
- A flush that finds no browser leaves the snapshot cache dirty (`HqServer.FlushCleansForBrowsers`), and one
  that fires while an evicted client's socket is still closing can send a stale one (`HqServer.FlushSendsStale`).
- A positive bound below one is accepted as zero (`BenchConfig.PositiveIntMayBeZero`), and a session log line
  holding the JSON value null makes the metrics reader, said never to throw, throw (`BenchConfig.ReadToolMetrics`)
  and with it the whole benchmark (`BenchReport.BenchmarkEndToEnd`).
- Restoring from history writes the masked snapshot, not the configuration (`ConfigBackups.HistoryRestoresMasked`).
  Restoring the last backup twice undoes itself only if both files parse to values that are written as they are
  (`ConfigBackups.RestoreLastTwice`): a numeral too large for a double is written as null
  (`ConfigBackups.OverRangeIsLost`). Either restore command throws after config.json is overwritten when the
  summary of changes does, on null (`ConfigBackups.NullThrowsLate`) and on an old value that cannot be printed
  (`ConfigBackups.ShadowedToStringThrowsLate`).
- A rotated OAuth token is dropped when `activeKey` names no key (`KeyStore.StaleLabelDropsToken`), although the
  comment above the callback says that a dropped token breaks the next login.
- The live model picker preselects the default model only among the 15 newest (`LivePicker.DefaultModelPreselected`).
- The fleet line is said to show the newest activity first; it shows the four agents that have run longest
  (`FleetLine.ShownInOrder`, `FleetLine.LeftOutAreNewest`). It is said never to wrap; below 20 columns it can
  (`FleetLine.FitsTerminal`), and with a bare escape in a name it can at any width (`FleetLine.EscapeDefeatsWidth`).
- The fleet status line is said to be up only while an agent runs; a late event for a finished agent puts it up
  and leaves it there (`FleetStatusLine.LateReportStaysUp`, with the exact condition in `FleetStatusLine.CoveredStep`).
- The configuration doctor's repair does not survive saving when maxConcurrent or a delay reads as infinity: the
  text "Infinity", and the number 1e999 next to anything else to fix, are written as null
  (`DoctorSaved.SavedRepairSettles`, `DoctorSaved.OverRangeIsLostOnSaving`). The repair needs a second pass when two
  spellings of a key collide (`DoctorTheorems.HintsAndHINTS`), when a plugin requires a property named after another
  one and an index, such as `x[0]` (`DoctorLimits.UnsafeNameUnsettles`), and when an earlier plugin of the same name
  has an enum at the root of its schema (`DoctorLimits.EarlierEnumUnsettles`). For a schema property named like one
  that every object inherits it reports a removal that removes nothing (`DoctorLimits.ConstructorOnlySeemsFixed`).

## Model

| member | source | states |
|---|---|---|
| `HqCommands.CommandQueue.TrimTo` | packages/cli/src/hq-server.ts:787-789 | dropping the oldest commands leaves exactly the newest `n`, in order |
| `HqCommands.CommandQueue.Push` | packages/cli/src/hq-server.ts:787-789 | a posted command goes to the end of its client's queue, which keeps the newest 200 |
| `HqCommands.CommandQueue.Poll` | packages/cli/src/hq-server.ts:1185-1210 | a poll is answered with what follows the cursor (all of it if the cursor is gone), only on an open socket, and the queue keeps the newest max(4 x limit, 100) either way |
| `HqCommands.BatchOfSuffix` | packages/cli/src/hq-server.ts:1190-1204 | a poll with the last received id gets exactly the undelivered part of the log that the queue still holds, whether or not the cursor was trimmed away |
| `HqCommands.RunAgrees` | packages/cli/src/hq-server.ts:1120-1210 | over any run of enqueues, polls, polls on a closing socket and second hellos the queue is a contiguous suffix of the commands enqueued, the cursor is the last command handed over, and the client holds what the ledger booked |
| `HqCommands.Delivery` | packages/cli/src/hq-server.ts:1120-1210 | any such run, any limits, any stale first cursor: commands arrive in order and never twice, and all of them up to the last answered poll arrive exactly when no answered poll came too late: none found more than 200 waiting, or some gone by a closing socket's poll or a hello |
| `HqCommands.NothingGone` | packages/cli/src/hq-server.ts:1185-1210 | without closing sockets and second hellos a poll comes too late exactly when more than 200 commands wait |
| `HqCommands.ParsedPollsRepeat` | packages/core/src/hq/protocol.ts:785-793 | the frame parser drops the cursor, so whatever the client sends, the poll after a non-empty batch repeats one of its commands exactly when fewer than 200 were enqueued in between |
| `HqCommands.ParsedPollsDeliverTwice` | packages/core/src/hq/protocol.ts:785-793 | smallest instance: one command, two parsed polls, delivered twice although the second names it as its cursor |
| `HqServer.NoLostUpdate` | packages/cli/src/hq-server.ts:1653-1698 | after any run of hello, event, poll, ack, post, close, connect, sweep and flush steps, a flush is due, or an evicted socket's close is, or every open browser shows the clean cache, which is the snapshot of the clients now |
| `HqServer.ReactAllInv` | packages/cli/src/hq-server.ts:1033-1059 | the invariant behind it is kept by every step in any order: clean cache means current cache, and a browser that is behind means a flush or a close event on its way |
| `HqServer.FlushCatchesUp` | packages/cli/src/hq-server.ts:1675-1682 | in every reachable state where no evicted socket is still closing, the pending flush brings every open browser up to date and leaves no timer |
| `HqServer.FlushIsCurrentIff` | packages/cli/src/hq-server.ts:1662-1682 | with or without evictions: the flush leaves every open browser current exactly when there is none, or the cache is dirty, or the clean cache is what would be built now |
| `HqServer.FlushSendsStale` | packages/cli/src/hq-server.ts:592-603 | a run whose flush sends a stale snapshot: a browser connects while a flush is due, the sweep empties the server without a broadcast, and the evicted socket's close is still to come |
| `HqServer.FlushCleansForBrowsers` | packages/cli/src/hq-server.ts:1675-1682 | a flush leaves the cache dirty exactly when it was dirty and no browser is connected |
| `HqServer.QuietButDirty` | packages/cli/src/hq-server.ts:1675-1682 | so a quiet server can hold a dirty cache: one client, no browser, one flush |
| `HqServer.SweepKeepsInv` | packages/cli/src/hq-server.ts:592-603 | the stale-client sweep, which skips its broadcast when it empties the server, keeps the invariant because each evicted socket still owes a close event |
| `HqServer.HqState.BroadcastSnapshot` | packages/cli/src/hq-server.ts:1684-1690 | marks the cache dirty and starts the one debounce timer unless it is running |
| `HqServer.HqState.CurrentSerialized` | packages/cli/src/hq-server.ts:1662-1673 | returns the cache if clean, else builds it anew from the current clients and marks it clean |
| `HqServer.HqState.Flush` | packages/cli/src/hq-server.ts:1675-1682 | the timer's callback: sends the current snapshot to every browser whose socket is open |
| `HqServer.HqState.HandleBrowser` | packages/cli/src/hq-server.ts:1033-1059 | a connecting browser is added and sent the current snapshot at once |
| `HqServer.HqState.OnHello` | packages/cli/src/hq-server.ts:1120-1180 | hello replaces the socket's client record and schedules a broadcast |
| `HqServer.HqState.OnEvent` | packages/cli/src/hq-server.ts:1226-1305 | an event touches the clock always, and schedules a broadcast exactly when it is adopted into the client's sessions, mailboxes or fleets; what each event does to these is stated by the lemmas of `HqTelemetry` |
| `HqServer.HqState.OnPoll` | packages/cli/src/hq-server.ts:1185-1210 | a poll changes its own client's queue and clock only; that queue's batch is sent when it is not empty and the socket is open |
| `HqServer.HqState.OnClientClosed` | packages/cli/src/hq-server.ts:1355-1358 | a closed socket's client is dropped and a broadcast scheduled, whether or not it was still registered |
| `HqServer.HqState.SweepStale` | packages/cli/src/hq-server.ts:592-603 | the sweep loop drops exactly the clients last seen before the cutoff, in place, and broadcasts unless none is left |
| `HqTelemetry.RunMapsOk` | packages/cli/src/hq-server.ts:1226-1305 | after any run of events every client's session, mailbox and fleet maps have distinct keys, and sessions are filed under their own ids |
| `HqTelemetry.SessionEndedEffect` | packages/cli/src/hq-server.ts:1284-1291 | after session.ended for an id, in any reachable state, that id is gone from the sender's sessions, every other session stays, and so does everything of every other client |
| `HqTelemetry.SessionSnapshotEffect` | packages/cli/src/hq-server.ts:1275-1282 | after session.snapshot the sender's sessions hold it under its id and are otherwise as they were |
| `HqTelemetry.MailboxSnapshotEffect` | packages/cli/src/hq-server.ts:1238-1252 | after mailbox.snapshot the sender's mailboxes hold it under project id and mailbox id joined by a colon, and are otherwise as they were |
| `HqTelemetry.FleetSnapshotEffect` | packages/cli/src/hq-server.ts:1293-1305 | after fleet.snapshot the sender's fleets hold it under its run id and are otherwise as they were |
| `HqTelemetry.OtherEventEffect` | packages/cli/src/hq-server.ts:1226-1236 | any other event, and any malformed one, moves the sender's clock and nothing else |
| `HqTelemetry.UnregisteredIsIgnored` | packages/cli/src/hq-server.ts:1226-1229 | what comes from a socket that never said hello changes nothing |
| `HqTelemetry.HelloEffect` | packages/cli/src/hq-server.ts:1120-1180 | hello registers the socket with what the payload says and empty maps, queue and cursor; all other sockets stay as they were |
| `HqTelemetry.ClosedEffect` | packages/cli/src/hq-server.ts:1355-1358 | a close unregisters its own socket and no other |
| `HqTelemetry.SweepEffect` | packages/cli/src/hq-server.ts:592-603 | a sweep drops exactly the clients not heard of since the cutoff and keeps the others as they were |
| `HqTelemetry.StartsAndStops` | packages/cli/src/hq-server.ts:1653-1698 | a server starts with nobody connected and no timer; a shut-down one has no timer and no open browser left |
| `HqTelemetry.PostedEffect` | packages/cli/src/hq-server.ts:740-790 | a posted command goes to the first client of that id and to nobody else, if it is well formed and that client receives commands |
| `HqTelemetry.PostedToNobody` | packages/cli/src/hq-server.ts:740-765 | with no client of that id a posted command changes nothing |
| `HqTelemetry.PollEffect` | packages/cli/src/hq-server.ts:1185-1210 | a poll moves only the polling client's clock and trims only its queue |
| `HqTelemetry.SessionLives` | packages/cli/src/hq-server.ts:1275-1291 | in every browser's view: after its snapshot a session is live with that payload, and after its end it is gone, when no other client reports it |
| `HqSnapshot.CountAgents` | packages/cli/src/hq-server.ts:1508-1518 | the agent loop counts every agent but the leader as a subagent and adds up all costs |
| `HqSnapshot.MergeClient` | packages/cli/src/hq-server.ts:1409-1470 | one client's contribution: first socket of a client id gives its record, later sockets overwrite sessions of the same id, its project gets a record |
| `HqSnapshot.RollLiveSessions` | packages/cli/src/hq-server.ts:1484-1547 | the loop over live sessions fills project and machine records and the running totals together |
| `HqSnapshot.SumMailboxes` | packages/cli/src/hq-server.ts:1581-1587 | unread and incomplete counts are summed over all mailbox summaries |
| `HqSnapshot.BuildSnapshot` | packages/cli/src/hq-server.ts:1397-1643 | the whole mutable-map build equals the snapshot function the conservation laws are about |
| `HqConservation.SnapshotConserves` | packages/cli/src/hq-server.ts:1472-1643 | for every set of clients: sessions = sum over projects = sum over machines = number of live sessions; agents sum over machines; subagents and cost sum over projects; clients sum over projects |
| `HqConservation.RecordsCountTheirOwn` | packages/cli/src/hq-server.ts:1472-1572 | each project record counts exactly its clients and sessions, each machine record exactly its placed clients, sessions and agents |
| `HqConservation.SessionIsPlaced` | packages/cli/src/hq-server.ts:1484-1547 | a live session's project has exactly one record, listing its machine, and its machine exactly one, listing the project |
| `HqConservation.LiveSessionsAreLatest` | packages/cli/src/hq-server.ts:1447-1449 | the live sessions are the distinct session ids reported, each with the newest payload |
| `HqConservation.RecordsAreFirst` | packages/cli/src/hq-server.ts:1409-1446 | client records are the distinct client ids, each described by its first socket |
| `HqConservation.SessionTotalCountsIds` | packages/cli/src/hq-server.ts:1578-1590 | the session and client totals are the cardinalities of the sets of ids reported |
| `HqConservation.RolledMachines` | packages/cli/src/hq-server.ts:1518-1547 | the machine map built by the loop holds for every key the sessions and agents of exactly that hostname or machine id |
| `HqConservation.AttributedClients` | packages/cli/src/hq-server.ts:1549-1572 | attributing clients to machines adds exactly the placed clients and disturbs no session or agent count |
| `HqCounts.TotalsCountAgents` | packages/cli/src/hq-server.ts:1508-1518 | the totals count agents one by one: active subagents are the (live session, agent) pairs whose agent id is not leader, agents less subagents the leaders, and the total cost is the sum of the agents' own costs |
| `HqCounts.SubagentsAreWorkers` | packages/cli/src/hq-server.ts:1511-1516 | a session's subagents are the positions of its agent list whose id is not leader |
| `HqCounts.ProjectsCountAgents` | packages/cli/src/hq-server.ts:1507-1519 | each project counts the live sessions of its own id, their subagents and their cost |
| `HqCounts.SameMachineIff` | packages/cli/src/hq-server.ts:1366-1370 | two records are of one machine exactly when their hostnames agree up to case and surrounding blanks, or neither has one and their machine ids agree |
| `HqCounts.TotalsCountMessages` | packages/cli/src/hq-server.ts:1451-1465 | the mailboxes listed are those the clients hold, one entry each, and the unread and incomplete totals are the sums of their own counts |
| `HqCounts.FleetsAreLatest` | packages/cli/src/hq-server.ts:1467-1470 | a fleet is what the last client to report its run says |
| `HqCounts.RecordsDescribe` | packages/cli/src/hq-server.ts:1409-1446 | a client record carries the id, kind, project, machine and hostname of the first socket of that id |
| `HqCounts.ProjectsAreNamed` | packages/cli/src/hq-server.ts:1421-1446 | a project record is named after the first client of the project |
| `HqPlaces.ProjectMachinesAre` | packages/cli/src/hq-server.ts:1421-1507 | a project is on exactly the machines that its clients name, their own or their project's, and its live sessions name |
| `HqPlaces.MachineProjectsAre` | packages/cli/src/hq-server.ts:1518-1572 | a machine works on exactly the projects of the live sessions on it and of the clients on it that say where they are |
| `HqPlaces.MachineClientsAre` | packages/cli/src/hq-server.ts:1549-1572 | and its client count is the number of these clients |
| `TranscriptRings.KeysRefineTrace` | packages/cli/src/hq-server.ts:162-168 | after any run of writes the map holds exactly the `max` most recently written ids, in last-write order |
| `TranscriptRings.RecencyIsLastWriteOrder` | packages/cli/src/hq-server.ts:1308-1328 | the recency list that says so is every written id, strictly ordered by its last write |
| `TranscriptRings.RingRefinesTrace` | packages/cli/src/hq-server.ts:1308-1347 | each ring is the newest 4000 entries appended since its id was last absent, under the machine id of the write that brought it in |
| `TranscriptRings.ServerRingsAreBounded` | packages/cli/src/hq-server.ts:153-168 | after any run of writes there are transcripts of at most 400 sessions and messages of at most 800 subagents, each of at most 4000 entries |
| `TranscriptRings.RingStore.Append` | packages/cli/src/hq-server.ts:1308-1328 | one accepted event: entries pushed, ring capped, id moved to the back, oldest ids evicted |
| `TranscriptRings.RingStore.EvictOldest` | packages/cli/src/hq-server.ts:162-168 | the eviction loop keeps exactly the newest `max` keys of the map |
| `TranscriptMerge.BatchingInvariance` | packages/cli/src/hq-dashboard-html.ts:342-361 | two ways of cutting the same stream into batches give the same cache, never longer than the cap of 6000 |
| `TranscriptMerge.BatchesFold` | packages/cli/src/hq-dashboard-html.ts:342-361 | any sequence of calls equals one call with the flattened stream |
| `TranscriptMerge.AbsorbTrimmed` | packages/cli/src/hq-dashboard-html.ts:347-361 | trimming before or after an entry is absorbed gives the same capped cache: the 399-entry window lies inside the cap |
| `TranscriptMerge.ResultJoinsItsCall` | packages/cli/src/hq-dashboard-html.ts:345-356 | a result within the window of its call lands in the call's own entry and changes no other; it never opens a second box |
| `TranscriptMerge.OneEntry` | packages/cli/src/hq-dashboard-html.ts:342-361 | every entry, field by field: a tool or error turn without input whose call stands among the last 399 turns gives the newest such call its text, its duration if it has one, and on an error the error role and mark, changing nothing else; any other entry is appended |
| `TranscriptMerge.KeepsTheNewest` | packages/cli/src/hq-dashboard-html.ts:360 | one call leaves the newest 6000 turns, all of them if there are no more |
| `TranscriptMerge.LastCall` | packages/cli/src/hq-dashboard-html.ts:349-351 | the backward search finds the newest call with the result's id in the last 399 entries, or there is none |
| `TranscriptMerge.TranscriptCache.FindCall` | packages/cli/src/hq-dashboard-html.ts:349-351 | the search loop itself finds that entry |
| `TranscriptMerge.TranscriptCache.WriteResult` | packages/cli/src/hq-dashboard-html.ts:352-354 | the merge overwrites the fields of the one cached object and leaves every other object as it was |
| `TranscriptMerge.TranscriptCache.AppendEntries` | packages/cli/src/hq-dashboard-html.ts:342-361 | the in-place loops over shared objects, with the final splice, compute the batch function |
| `WorkerPool.PoolSafety` | packages/bench/src/runner.ts:228-245 | in every interleaving, at every moment: calls started are 0, 1, 2, ... in that order, at most `limit` are outstanding, and a filled slot holds its own item's value |
| `WorkerPool.PoolProgress` | packages/bench/src/runner.ts:228-245 | with calls that reject or not, every run is at most items + limit steps; some worker can run exactly until each has finished once; then every started call's outcome is in its slot, the map rejects exactly when some call does, and the calls started are all of them or the shortest prefix with `limit` rejected ones |
| `WorkerPool.FinishedAlike` | packages/bench/src/runner.ts:228-245 | so the calls made, the slots and whether the map rejects are the same for every interleaving |
| `WorkerPool.NoneRejected` | packages/bench/src/runner.ts:228-245 | and where no call rejects every slot holds `fn` of its item |
| `WorkerPool.LeftOverMeansAllRejected` | packages/bench/src/runner.ts:236-243 | items are left over only if every worker has stopped on a rejected call, and these are all the rejected calls |
| `WorkerPool.ReturnsOnlyWhenDrained` | packages/bench/src/runner.ts:237-241 | no worker returns while an item has not been started |
| `WorkerPool.InFlightBounded` | packages/bench/src/runner.ts:236-242 | at most one call per worker is outstanding |
| `WorkerPool.Limit` | packages/bench/src/runner.ts:235 | the worker count is the requested one when that lies between one and the item count, else the nearer of the two, and one for no items |
| `WorkerPool.MapWithConcurrency` | packages/bench/src/runner.ts:228-245 | the pool under an arbitrary scheduler terminates; it rejects exactly when some call does, and otherwise results[i] is what fn(items[i], i) resolves to for every i |
| `BenchConfig.ParseCells` | packages/bench/src/config.ts:26-49 | the loop with its `seen` set accepts exactly the lists whose cells are all valid and uniquely labelled, and returns those cells |
| `BenchConfig.Parse` | packages/bench/src/config.ts:15-56 | a config is accepted exactly when it has cells, all valid and uniquely labelled, and acceptable bounds |
| `BenchConfig.AcceptedIs` | packages/bench/src/config.ts:15-56 | acceptance read off the raw config: non-empty provider and model, the given label or the two names joined by a slash, distinct labels, and bounds of 40 iterations, 4 workers and 600000 ms unless a positive number is given |
| `BenchConfig.PositiveInt` | packages/bench/src/config.ts:81-87 | a bound is rejected exactly when it is given but not a positive number; otherwise it is the given number rounded down, or the fallback when absent |
| `BenchConfig.PositiveIntMayBeZero` | packages/bench/src/config.ts:81-87 | rounding down comes after the check: the accepted bound is at least 1 exactly when the number given was |
| `BenchConfig.ReadToolMetrics` | packages/bench/src/session-metrics.ts:60-82 | the counting loop counts each kind of line; edit errors never exceed edit calls, nor those all calls; it throws exactly when a line is the JSON value null |
| `BenchConfig.MetricsCount` | packages/bench/src/session-metrics.ts:60-82 | each metric is the number of log lines of its kind: ended calls, ended calls of an edit tool, failed ones among these, and provider retries or errors |
| `BenchReport.BuildUnits` | packages/bench/src/orchestrate.ts:81-86 | the nested loops list every task-by-cell pair, tasks outermost |
| `BenchReport.RunBenchmark` | packages/bench/src/orchestrate.ts:56-139 | a suite without tasks is refused; the benchmark rejects exactly when some unit's call does; otherwise the rows are the aggregate of one result per pair, whose numbers the lemmas of `BenchRows` read off the results |
| `BenchReport.ReportIsScheduleIndependent` | packages/bench/src/orchestrate.ts:89-132 | whatever the interleaving, a finished pool has rejected exactly when some unit's call does; otherwise its slots are the per-pair results in unit order, so the rows do not depend on completion order |
| `BenchReport.RowIgnoresOrder` | packages/bench/src/aggregate.ts:9-54 | a row is the same for any order of its results, medians included |
| `BenchReport.RatesAreFractions` | packages/bench/src/aggregate.ts:28-52 | pass, timeout and edit-apply rates lie in [0,1], given edit errors at most edit calls |
| `BenchReport.RowsPartitionThePairs` | packages/bench/src/aggregate.ts:57-64 | row task counts sum to tasks times cells exactly when labels are unique |
| `BenchReport.RowIsItsCellsTasks` | packages/bench/src/aggregate.ts:57-64 | with unique labels a cell's row is made of that cell's own results, one per task, so every pair lands in exactly one row |
| `BenchReport.BenchmarkEndToEnd` | packages/bench/src/orchestrate.ts:56-139 | from config to leaderboard: for any accepted config, any tasks, runs and logs and any interleaving of the pool, once no worker can run the benchmark has rejected exactly if some unit could not be prepared or run or its log holds a null line; if none has, each row aggregates its own cell's results, one per task, the rows partition the pairs, and every rate is a fraction |
| `BenchReport.SumLoop` | packages/bench/src/aggregate.ts:76-80 | the accumulator loop is the sum that the permutation lemmas are about |
| `BenchRows.PassRateCounts` | packages/bench/src/aggregate.ts:27-44 | the graded count is the number of results not marked ungraded, and the pass rate times it the number of those that passed; an ungraded result counts on neither side, and with none graded the rate is 0 |
| `BenchRows.TimeoutRateCounts` | packages/bench/src/aggregate.ts:32-52 | the timeout rate times the task count is the number of runs that timed out |
| `BenchRows.ApplyRateCounts` | packages/bench/src/aggregate.ts:34-38 | the edit-apply rate times all edit calls is the calls less the errors, and 1 when no edit was attempted |
| `BenchRows.AveragesAddUp` | packages/bench/src/aggregate.ts:46-53 | each average times the number of results is the sum of its field over the results, and the retries are that sum |
| `BenchRows.MediansSplit` | packages/bench/src/aggregate.ts:49-50 | the two medians are medians of the iterations and of the elapsed times |
| `BenchRows.MedianIsMedian` | packages/bench/src/aggregate.ts:67-74 | a median is the value of middle rank, half way between the two middle ones for an even number, and 0 of nothing |
| `BenchRows.MedianHalves` | packages/bench/src/aggregate.ts:67-74 | at most half of the values lie strictly below a median, and at most half strictly above |
| `ConfigHistory.MaskHidesAll` | packages/cli/src/config-history.ts:139-152 | after masking, no secret-named field reached through objects holds anything but the mark |
| `ConfigHistory.MaskIsIdentity` | packages/cli/src/config-history.ts:139-152 | masking changes nothing exactly when there was nothing to hide and no field named `__proto__`, which the copy loses |
| `ConfigHistory.MaskedReads` | packages/cli/src/config-history.ts:139-152 | field by field: a secret one reads as the mark, an object is masked in turn, `__proto__` is gone, and every other value is as it was |
| `ConfigHistory.RecordIsFaithful` | packages/cli/src/config-history.ts:330-370 | what an entry file holds of a config is the config exactly when it has no secrets, no field named `__proto__` and no number that is written as null |
| `ConfigHistory.DiffSummary` | packages/cli/src/config-history.ts:154-170 | whether the change summary comes to its end: it throws exactly when either config is null or an old value that must be printed has a `toString` of its own |
| `ConfigHistory.SummaryThrowsIff` | packages/cli/src/config-history.ts:154-170 | when that is, read off the configs: one is null, or a field of the old one is not secret, holds a `toString` of its own, at any depth of arrays, and what stands under its name now is no object |
| `ConfigHistory.AppendEffect` | packages/cli/src/config-history.ts:236-265 | one append from any directory: the new entry heads an index of at most 50, overflow and orphan files are gone, other files stay |
| `ConfigHistory.IndexIsNewest` | packages/cli/src/config-history.ts:330-370 | after any run of appends with fresh ids the index is the newest 50, newest first |
| `ConfigHistory.FilesAreTheIndex` | packages/cli/src/config-history.ts:236-265 | and the entry files on disk are exactly the ids in the index, each holding the entry appended under it as it is printed: infinities are null |
| `ConfigBackups.PruneHistoryEntries` | packages/cli/src/config-history.ts:236-265 | the index is cut to its newest 50, and the files of the overflow and of no entry are unlinked |
| `ConfigBackups.PruneKeepsGreatest` | packages/cli/src/config-history.ts:309-325 | of the backups exactly the ten greatest names stay, and nothing but a backup is deleted |
| `ConfigBackups.DoomedByRank` | packages/cli/src/config-history.ts:313-317 | sort, reverse and slice pick a backup for deletion exactly when ten or more have greater names |
| `ConfigBackups.ProtectedAreNotBaks` | packages/cli/src/config-history.ts:65-105 | no protected name, nor the `.last` copy, is ever a deletable backup |
| `ConfigBackups.BackupEffect` | packages/cli/src/config-history.ts:274-325 | backing up copies config.json to `.last` and to a stamped name if there is one, and changes no other file that is not a backup |
| `ConfigBackups.RestoreLastSwaps` | packages/cli/src/config-history.ts:447-487 | with JSON in both files, config.json comes to hold what `.last` held as it is printed, `.last` the old config.json to the byte; the command throws after the write exactly when the summary does |
| `ConfigBackups.RestoreLastTwice` | packages/cli/src/config-history.ts:447-487 | two in a row bring both files back exactly when there is nothing to restore, or both parse to values that are written as they are |
| `ConfigBackups.RestoreLastTwiceSucceeds` | packages/cli/src/config-history.ts:447-487 | and both also succeed exactly when, besides, the summary throws in neither direction, so neither file holds null |
| `ConfigBackups.OverRangeIsLost` | packages/cli/src/config-history.ts:447-487 | input that defeats the swap: the number 1e999 in `.last` comes back as null |
| `ConfigBackups.NullThrowsLate` | packages/cli/src/config-history.ts:447-487 | a file holding null makes the command throw with config.json overwritten and nothing recorded |
| `ConfigBackups.ShadowedToStringThrowsLate` | packages/cli/src/config-history.ts:154-170 | so does an old value with a `toString` of its own that became a scalar |
| `ConfigBackups.OverwriteEffect` | packages/cli/src/config-history.ts:400-487 | what either restore command leaves on disk, thrown or not: config.json printed anew, `.last` the old file, other files that are no backups untouched |
| `ConfigBackups.RestoreLastOutcome` | packages/cli/src/config-history.ts:447-487 | what restoring the last backup answers and leaves: nothing to restore when `config.json.last` is missing or corrupt, whoever asks; refusal for a config of somebody else's; otherwise that backup in config.json and a history that starts with the restore, unless the summary throws |
| `ConfigBackups.RestoreEntryOutcome` | packages/cli/src/config-history.ts:398-442 | the same for an entry: unknown ids change nothing, and the masked config of the entry is what is written |
| `ConfigBackups.BakNames` | packages/cli/src/config-history.ts:65-105 | pruning may delete the names with a stamp between `config.json.` and `.bak`, and `config.json.bak`, in which the two share their dot; nothing else |
| `ConfigBackups.StampedCopyIsKept` | packages/cli/src/config-history.ts:296-325 | after a backup the stamped copy is there, under its full name, unless ten backups have greater names |
| `ConfigBackups.BackupKeepsConfig` | packages/cli/src/config-history.ts:274-325 | backing up leaves config.json as it is, whatever the directory |
| `ConfigBackups.HistoryRestoresMasked` | packages/cli/src/config-history.ts:400-442 | recording a config and restoring that entry gives it back exactly when it held no secrets, no field named `__proto__` and nothing written as null: the masked copy is what is written; the command throws after the write exactly when the summary does |
| `ConfigBackups.NothingPrecious` | packages/cli/src/config-history.ts:56-124 | no backup or restore ever loses config.json, the key file or the index |
| `ConfigBackups.ConfigFiles.PruneBackups` | packages/cli/src/config-history.ts:309-325 | the unlink loop behind the safety guard |
| `ConfigBackups.ConfigFiles.BackupCurrent` | packages/cli/src/config-history.ts:274-325 | `backupCurrent` on the directory |
| `ConfigBackups.ConfigFiles.AppendHistory` | packages/cli/src/config-history.ts:330-370 | the summary, the entry file, the index and both unlink loops of one append; nothing is recorded when the summary throws |
| `ConfigBackups.ConfigFiles.RestoreLastBackup` | packages/cli/src/config-history.ts:447-487 | `restoreLast` with its ownership guard, its two error paths and the throw after the write |
| `ConfigBackups.ConfigFiles.RestoreEntry` | packages/cli/src/config-history.ts:400-442 | `restoreFromHistory` with its unknown-id and ownership errors and the throw after the write |
| `ArgParser.ParseArgs` | packages/cli/src/arg-parser.ts:56-92 | the index loop, with `--` and the two-token flags, and the alias splice compute the recursive reader |
| `ArgParser.PrintParseRoundTrip` | packages/cli/src/arg-parser.ts:56-117 | printing flags and positionals and parsing them gives them back exactly when no flag name holds `=` or is `__proto__`, no empty name is a bare flag, and the positionals do not start with a surface alias |
| `ArgForms.LineReads` | packages/cli/src/arg-parser.ts:56-93 | reading any command line gives what its forms stand for: `--name`, `--name=text`, `--name text` for a flag that takes a value, `-c` with `-v` for verbose, words and empty arguments; what follows a bare `--` is positional |
| `ArgForms.EveryLineIsSpelled` | packages/cli/src/arg-parser.ts:56-93 | every command line is spelled from these forms up to its end or a bare `--` |
| `ArgForms.FormReads` | packages/cli/src/arg-parser.ts:59-92 | each form is read as what it means and nothing more, whatever follows, where a flag without a value may not stand before an argument that could be one |
| `ArgForms.LaunchWords` | packages/cli/src/arg-parser.ts:106-121 | webui, desktop, hq alone and hq serve in front become flags and leave the other positionals |
| `ArgForms.OtherWords` | packages/cli/src/arg-parser.ts:106-121 | any other start, hq with another subcommand included, is left alone |
| `ArgParser.SurfaceWordIsFlag` | packages/cli/src/arg-parser.ts:94-117 | `webui rest` and `--webui rest` (and `desktop`) parse alike exactly when the rest brings no further alias first and gives the flag no text |
| `ArgParser.NormalizeShortens` | packages/cli/src/arg-parser.ts:103-117 | alias normalization changes the positionals exactly when they start with an alias, and adds no flag but the three surfaces |
| `ArgParser.ScanAdds` | packages/cli/src/arg-parser.ts:59-89 | reading arguments adds to what was parsed before; nothing read earlier changes how later arguments are taken |
| `KeyStore.MigrationKeepsActiveKey` | packages/cli/src/provider-config-utils.ts:20-73 | for every provider config, normalizing and writing back keeps the resolved key, clears the legacy field, leaves `activeKey` naming a real key, and is idempotent |
| `KeyStore.RotationTakesEffect` | packages/cli/src/cli-main.ts:251-263 | rotation rewrites one record and no other; the new token is the one resolved exactly when a record was found (or it was in use already) |
| `KeyStore.RotationRewrites` | packages/cli/src/cli-main.ts:258-262 | the record keeps its label and date, takes both tokens and the expiry, and the account id when one is given |
| `KeyStore.LegacyKeyIsMigrated` | packages/cli/src/provider-config-utils.ts:20-52 | a single legacy key becomes the one record, labelled default and active |
| `KeyStore.RotationMisses` | packages/cli/src/cli-main.ts:256-257 | no record is found exactly when there are no keys or `activeKey` names none of them, although a key is then still in use |
| `KeyStore.StaleLabelDropsToken` | packages/cli/src/cli-main.ts:256-257 | smallest instance: under a stale label the rotated token is dropped and the old one stays in use |
| `KeyStore.ProviderConfig.WriteKeysBack` | packages/cli/src/provider-config-utils.ts:36-52 | the three fields after a write-back |
| `KeyStore.ProviderConfig.PersistRotation` | packages/cli/src/cli-main.ts:251-263 | the persister callback on the provider entry |
| `PluginList.ListRefinesMap` | packages/cli/src/plugin-management.ts:781-891 | after any sequence of add, enable, disable, remove and toggle on single-spelling plugins, every plugin's setting, and whether it runs, is what an on/off/unset map with defaults gives |
| `PluginList.ToggleFlips` | packages/cli/src/plugin-management.ts:790-820 | an accepted toggle flips what runs (telegram's two spellings included), leaves at most one matching entry, and keeps all other entries in order |
| `PluginList.ToggleRefuses` | packages/cli/src/plugin-management.ts:785-804 | a toggle is refused exactly for locked plugins and for unknown ones that are not configured |
| `PluginList.RunsIff` | packages/cli/src/plugin-management.ts:734-758 | a plugin runs exactly when its first entry, under either spelling of telegram, does not switch it off, or it has none, is built in and on by default |
| `PluginList.EnableMissesOtherSpelling` | packages/cli/src/plugin-management.ts:734-758 | with two spellings the map view fails: enabling one leaves the plugin off while the other is listed first and disabled |
| `PluginList.PluginFile.TogglePlugin` | packages/cli/src/plugin-management.ts:781-837 | the toggle on the config file, feature flag included; an error changes nothing |
| `PluginList.PluginFile.UpsertPlugin` | packages/cli/src/plugin-management.ts:839-868 | add, enable and disable on the config file |
| `PluginList.PluginFile.RemovePlugin` | packages/cli/src/plugin-management.ts:870-891 | removal on the config file, refused when nothing matches |
| `Picker.OrderedPermutes` | packages/cli/src/picker.ts:146-165 | ordering for display is a permutation |
| `Picker.OrderedIdempotent` | packages/cli/src/picker.ts:146-165 | ordering an ordered list changes nothing, so the renderer and the key loop agree on indices |
| `Picker.FamiliesOfSections` | packages/cli/src/picker.ts:153-164 | the families appear in the order the sections were laid out, each once |
| `Picker.SectionOf` | packages/cli/src/picker.ts:158-163 | a family's providers in the result are its providers sorted by id |
| `Picker.FamilyOrderCovers` | packages/cli/src/picker.ts:153-156 | the family order lists each family present exactly once |
| `Picker.OrderProvidersForDisplay` | packages/cli/src/picker.ts:146-165 | the grouping and layout loops compute that order |
| `LivePicker.ApplyPickerKey` | packages/cli/src/picker.ts:87-124 | the character loop of a key chunk, with its early returns; what each key does is stated by the lemmas of `PickerKeys` |
| `PickerKeys.UpArrow` | packages/cli/src/picker.ts:93 | escape [A marks the row above, or the first again, and keeps the query |
| `PickerKeys.DownArrow` | packages/cli/src/picker.ts:94-95 | escape [B marks the row below, or the last that can be selected again, and keeps the query |
| `PickerKeys.TypedText` | packages/cli/src/picker.ts:104-122 | printable text, typed or pasted, goes to the end of the query and marks the first row |
| `PickerKeys.ErasingKeys` | packages/cli/src/picker.ts:116-120 | delete and backspace drop the last character and mark the first row |
| `PickerKeys.ClearingKeys` | packages/cli/src/picker.ts:97-115 | escape alone and Ctrl+U empty the query and mark the first row |
| `PickerKeys.OtherSequences` | packages/cli/src/picker.ts:98-99 | any other escape sequence changes nothing |
| `PickerKeys.Enter` | packages/cli/src/picker.ts:105-107 | a chunk with Enter takes the marked row of the query on screen if something matches and does nothing otherwise; what it typed before the Enter is dropped |
| `PickerKeys.ControlC` | packages/cli/src/picker.ts:108 | Ctrl+C quits, whatever the chunk held before it, unless that was an Enter |
| `PickerKeys.PasteIsTyping` | packages/cli/src/picker.ts:101-124 | a chunk that only edits does what its parts do one after the other, clamped cursor included |
| `PickerKeys.CursorIsClamped` | packages/cli/src/picker.ts:402-412 | a repaint leaves the cursor on its row, or on the last row if there is no such row any more |
| `PickerView.ProviderListedIff` | packages/cli/src/picker.ts:66-72 | a provider is listed exactly when the query's word, blanks around it taken off, stands in its id or name, ignoring case; a blank query lists all |
| `PickerView.ModelListedIff` | packages/cli/src/picker.ts:217-221 | the same for models |
| `PickerView.DisplayOrder` | packages/cli/src/picker.ts:128-165 | of two providers in display order, both are of one family, or the first's family comes earlier in the fixed order, or neither is in it and the first's family appears earlier in the list |
| `PickerView.ProviderLayout` | packages/cli/src/picker.ts:174-210 | the frame: the rows of the window of 15 that ends at the cursor at the latest, between its two ends |
| `PickerView.FrameEnds` | packages/cli/src/picker.ts:182-209 | the ends say how many providers lie above and below the window, only when some do |
| `PickerView.RowsAreHeaded` | packages/cli/src/picker.ts:187-195 | every item stands under its family's header, shown only where the family changes and right above an item of it |
| `PickerView.ModelLayout` | packages/cli/src/picker.ts:229-257 | a model frame shows the 15 newest and how many more there are |
| `LivePicker.ProviderFrameMarks` | packages/cli/src/picker.ts:174-210 | a provider frame shows at most 15 providers, a contiguous stretch of the ordered list, and marks exactly the selected one |
| `LivePicker.ModelFrameMarks` | packages/cli/src/picker.ts:229-257 | the same for a model frame |
| `LivePicker.RenderProviderRows` | packages/cli/src/picker.ts:187-204 | the rendering loop over the visible providers with its family headers |
| `LivePicker.WhatYouSeeIsPicked` | packages/cli/src/picker.ts:411-437 | after any key chunks, with the picker up and something matching, exactly one row on screen is marked, a lone Enter submits, and whatever chunk submits takes the marked row's item |
| `LivePicker.ProvidersFaithful` | packages/cli/src/picker.ts:369-440 | the provider picker is such a picker |
| `LivePicker.ModelsFaithful` | packages/cli/src/picker.ts:696-786 | and so is the model picker, whose cursor stays in the first 15 |
| `LivePicker.DefaultModelPreselected` | packages/cli/src/picker.ts:711-735 | the default model is the one preselected exactly when it is among the 15 newest |
| `LivePicker.IndexOfModel` | packages/cli/src/picker.ts:713-714 | the default's index is its first place in the newest-first list, if it has one |
| `LivePicker.ProviderPicker.HandleChunk` | packages/cli/src/picker.ts:413-438 | the input handler on the picker's variables; its fallback to the first row is never needed |
| `LivePicker.ProviderPicker.Repaint` | packages/cli/src/picker.ts:402-412 | a repaint recomputes the list, clamps the cursor and redraws the frame |
| `FleetLine.LineFits` | packages/cli/src/fleet-statusline.ts:99-127 | for names, tools and a version whose escapes are all colour codes the line is whole, its visible text is that of the plain text or its first max - 1 characters and an ellipsis, and it is at most max(20, columns - 1) wide |
| `FleetLine.CutShows` | packages/cli/src/fleet-statusline.ts:107-124 | the truncation keeps a prefix of the line, splits no colour code, and shows exactly the first visible characters |
| `FleetLine.FitsTerminal` | packages/cli/src/fleet-statusline.ts:99-103 | the line fits the terminal exactly when it has at least 20 columns or the text is short enough: the floor of 20 defeats the promise that it never wraps |
| `FleetLine.ColourIsInvisible` | packages/cli/src/fleet-statusline.ts:59-127 | with the codes taken out the coloured and the colourless line show the same, which is the colourless line itself when it holds no escape |
| `FleetLine.EscapeDefeatsWidth` | packages/cli/src/fleet-statusline.ts:62-127 | the hypothesis on names is needed: on a terminal of any width, coloured or not, one running agent whose name holds a bare escape and then that many characters before an `m` makes the formatter's line wider than the bound |
| `FleetLine.TruncateLine` | packages/cli/src/fleet-statusline.ts:104-125 | the guard, the loop with its `i` and `count`, and the ellipsis |
| `FleetLine.RenderFleetLine` | packages/cli/src/fleet-statusline.ts:62-127 | the formatter, empty for no agents |
| `FleetLine.ShownInOrder` | packages/cli/src/fleet-statusline.ts:82-94 | the line names up to four running agents, longest-running first |
| `FleetLine.LeftOutAreNewest` | packages/cli/src/fleet-statusline.ts:82-85 | a running agent that is left out started no earlier than any that is shown |
| `FleetLine.Tally` | packages/cli/src/fleet-statusline.ts:69-71 | the running, done and failed counts add up to the number of agents |
| `FleetText.LineSays` | packages/cli/src/fleet-statusline.ts:73-97 | the line before it is cut, part by part with its colour codes: the version chip, the counts of running, done and, if any, failed agents, and each shown agent's name, time, iterations, calls, last tool and extensions |
| `FleetText.CutToRoom` | packages/cli/src/fleet-statusline.ts:99-127 | what is seen of it: all, if it has room in max(20, columns - 1), else its first characters and an ellipsis in the last place |
| `FleetText.CodesAre` | packages/cli/src/fleet-statusline.ts:101-103 | what counts as a colour code: an escape, a bracket, digits and semicolons, and an m |
| `FleetLine.ElapsedReads` | packages/cli/src/fleet-statusline.ts:44-52 | reading an elapsed time back gives the whole seconds, and from an hour on the whole minutes |
| `FleetStatusLine.Lifecycle` | packages/cli/src/fleet-statusline.ts:129-303 | over every run on or off a TTY: tick timer, resize hook, scroll region and painted row exist exactly while active, a repaint is pending only while active, and a change to the agents is on the row or due within one throttle interval of the last paint |
| `FleetStatusLine.ScheduledCurrent` | packages/cli/src/fleet-statusline.ts:279-292 | `schedulePaint` while active paints at once or leaves a repaint pending |
| `FleetStatusLine.StopIsFinal` | packages/cli/src/fleet-statusline.ts:231-235 | `stop` restores the terminal, and no timer still pending takes it again |
| `FleetStatusLine.RowFits` | packages/cli/src/fleet-statusline.ts:294-303 | in every reachable state the reserved row holds a whole line no wider than max(20, columns - 1) of when it was painted, provided escapes in ids, names, tools and version are all colour codes |
| `FleetStatusLine.CoveredStep` | packages/cli/src/fleet-statusline.ts:172-227 | an active line has a running agent or a retraction pending; exactly a spawn, tool or budget event for a finished agent of an idle fleet breaks that |
| `FleetStatusLine.IdleMeansRetracted` | packages/cli/src/fleet-statusline.ts:8-10 | in runs without such an event, a fleet with nothing running and no retraction pending has given the terminal back |
| `FleetStatusLine.LateReportStaysUp` | packages/cli/src/fleet-statusline.ts:187-193 | a late tool report after the retraction puts the line up again with nothing left to take it down |
| `FleetStatusLine.StatusLine.Activate` | packages/cli/src/fleet-statusline.ts:241-253 | taking the terminal: region, hook, timer and first paint |
| `FleetStatusLine.StatusLine.Deactivate` | packages/cli/src/fleet-statusline.ts:256-277 | giving it back: both timers, the hook, the region and the row |
| `FleetStatusLine.StatusLine.SchedulePaint` | packages/cli/src/fleet-statusline.ts:279-292 | the throttle |
| `FleetStatusLine.StatusLine.HandleEvent` | packages/cli/src/fleet-statusline.ts:171-228 | the six event handlers, delayed retraction included |
| `FleetEvents.EventRecorded` | packages/cli/src/fleet-statusline.ts:178-221 | each event but a spawn, field by field: the agent it names, or one just seen, gets exactly what the event says, done for a success and failed otherwise; no other agent changes |
| `FleetEvents.SpawnRecorded` | packages/cli/src/fleet-statusline.ts:153-177 | a spawn adds a running agent with nothing done, or names one that has only its id for a name |
| `FleetEvents.KnownFromEvents` | packages/cli/src/fleet-statusline.ts:153-221 | over any run the line knows exactly the agents it was told of, each with the status last reported, the calls of the newest report plus those executed since, and the time of its first event |
| `FleetEvents.EventPaints` | packages/cli/src/fleet-statusline.ts:279-292 | an event that finds the line up paints at once when the last paint is a throttle interval ago, and otherwise leaves one repaint due when that interval ends |
| `FleetEvents.Retractions` | packages/cli/src/fleet-statusline.ts:217-227 | a completion that leaves nothing running puts down one retraction, nothing else does, and each gives the terminal back exactly if nothing runs when it is due |
| `FleetEvents.BottomRowIsReserved` | packages/cli/src/fleet-statusline.ts:143-149 | taking the terminal and a resize leave the bottom row, of 24 when the terminal does not say, out of the scroll region and paint at once |
| `FleetStatusLine.StatusLine.OnRetractDue` | packages/cli/src/fleet-statusline.ts:222-226 | the delayed retraction looks again before it acts |
| `FleetStatusLine.StatusLine.OnResize` | packages/cli/src/fleet-statusline.ts:143-149 | a resize re-reserves the row and repaints while active |
| `DoctorTheorems.DoctorSettles` | packages/cli/src/config-doctor.ts:121-424 | for top-level keys distinct ignoring case, safe required names, properties not named like what every object inherits, and no root enum on an earlier plugin of the same name: diagnosing the repaired config reports no fix, changes nothing and returns it as it is |
| `DoctorTheorems.ChangedIffFixed` | packages/cli/src/config-doctor.ts:422-423 | for every config and any plugins whose schemas name nothing that every object inherits, `changed` holds exactly when some finding carries a fix, and otherwise the config is returned as it was |
| `DoctorTheorems.UnfixedIsUnchanged` | packages/cli/src/config-doctor.ts:422-423 | for every config and any plugins at all, nothing changes without a finding that carries a fix |
| `DoctorLimits.ChangedExactlyForOrdinaryNames` | packages/cli/src/config-doctor.ts:397-413 | and the hypothesis is exact: `changed` tells whether a fix is reported, on every config and whatever the sub-schemas, exactly when no listed name is taken for an inherited one |
| `DoctorLimits.ConstructorOnlySeemsFixed` | packages/cli/src/config-doctor.ts:397-413 | the smallest such schema: a property named constructor has its removal reported from every section without it, and nothing changes |
| `DoctorTheorems.SettlesIff` | packages/cli/src/config-doctor.ts:121-424 | for any keys, under the same conditions on schemas, a second diagnosis finds a fix exactly when an unknown key of the repaired config can take its match's name |
| `DoctorTheorems.FreedNameDoesNotSettle` | packages/cli/src/config-doctor.ts:128-150 | why keys must be distinct: when `hints` is beyond repair, its removal frees the name for another spelling, which a second diagnosis renames |
| `DoctorTheorems.CollidingKeys` | packages/cli/src/config-doctor.ts:128-150 | the smallest such config: `hints` beyond repair next to a second spelling of it |
| `DoctorTheorems.HintsAndHINTS` | packages/cli/src/config-doctor.ts:128-150 | concretely, with ASCII case folding: `hints` beyond repair next to `HINTS` |
| `DoctorTheorems.RenamesComplete` | packages/cli/src/config-doctor.ts:128-150 | with keys distinct ignoring case every misspelled key that has a match is renamed |
| `DoctorTheorems.RenameIff` | packages/cli/src/config-doctor.ts:128-150 | a rename is reported exactly when some unknown key's match is not taken |
| `DoctorValidity.FixIffInvalid` | packages/cli/src/config-doctor.ts:121-417 | a fix is reported exactly for configs where some key can be renamed or some checked field is not what it should be, stated field by field without the doctor |
| `DoctorValidity.RepairedIsValid` | packages/cli/src/config-doctor.ts:121-417 | every checked field of the repaired config is what it should be |
| `DoctorValidity.NumbersStayNear` | packages/cli/src/config-doctor.ts:203-227 | a rewritten count is the whole number just below, a rewritten delay the nearest, a negative one 0 |
| `DoctorValues.SwitchesKeepTheirMeaning` | packages/cli/src/config-doctor.ts:105-188 | hints, debugStream, yolo and nextPrediction: true afterwards exactly if they were true, "true", "on" or 1 under their name after the renames, false exactly if false, "false", "off" or 0, and gone otherwise |
| `DoctorValues.HeldSwitchesKeepTheirMeaning` | packages/cli/src/config-doctor.ts:105-188 | the same, read in the configuration itself, for a switch it holds |
| `DoctorValues.ScalarsRepaired` | packages/cli/src/config-doctor.ts:152-238 | version becomes 1 if present; configScope stays if it is one of its two words; maxConcurrent is the number its value or text stands for, rounded down and at least 0; provider and model are never touched |
| `DoctorValues.SectionsRepaired` | packages/cli/src/config-doctor.ts:240-417 | an autonomy block, plugin list or extensions of the wrong kind is removed; in the block the two choices, the switch, the two delays and the word are repaired each in its way and all else kept; of the list the texts and named objects stay in order, their switch and options repaired |
| `DoctorValues.RenamedReads` | packages/cli/src/config-doctor.ts:128-150 | what every key reads after the renames: a known key keeps its value or takes that of the first misspelled one, which is then gone; nothing else moves |
| `DoctorValues.FirstAlike` | packages/cli/src/config-doctor.ts:130-131 | the match is the first known key that agrees ignoring case, and none only if no known key does |
| `DoctorValues.SecretsAreFound` | packages/cli/src/config-doctor.ts:426-444 | the scan warns of a path exactly when it leads through objects to a text, under a secret name, that is not empty and not encrypted |
| `DoctorFindings.FixesAreDone` | packages/cli/src/config-doctor.ts:121-417 | a fix reported of a top-level key is what was done: a key set to a value holds it afterwards, a removed one is gone |
| `DoctorFindings.AutonomyFixesAreDone` | packages/cli/src/config-doctor.ts:240-312 | the same inside the autonomy block |
| `DoctorFindings.NamesMustBeText` | packages/cli/src/config-doctor.ts:229-238 | a provider or model that is no text, and only such a one, is reported as an error without a fix |
| `DoctorFindings.RenamesReport` | packages/cli/src/config-doctor.ts:128-150 | the pass over unknown keys reports unknown keys only: a rename to the key's match, or a warning |
| `DoctorFindings.EveryErrorIsReported` | packages/cli/src/config-doctor.ts:390-416 | each schema error of a section is reported once, in order, under its path, as removed exactly when the property it names is there to remove |
| `DoctorFindings.OneIndexIsTakenOff` | packages/cli/src/config-doctor.ts:395-399 | the property an error names is its path without one numeric index at the end |
| `DoctorValidity.OthersUntouched` | packages/cli/src/config-doctor.ts:121-424 | a known key the doctor has no check for keeps its value |
| `DoctorSections.PurgeSuffices` | packages/cli/src/config-doctor.ts:390-416 | with safe required names and ordinary property names, after a section's purge no error of the plugin's schema names a property the section still has |
| `DoctorSections.SafeNamesExact` | packages/cli/src/config-doctor.ts:397-413 | and safe names are exactly what is needed: for every other list of required names some section and sub-schemas of ordinary properties defeat the purge |
| `DoctorSections.StaysPurged` | packages/cli/src/config-doctor.ts:390-416 | a purged section stays purged under another plugin's purge, unless the schema has an enum at its root |
| `DoctorSections.PluginsQuieten` | packages/cli/src/config-doctor.ts:390-416 | so after the pass over any plugins, names shared or not, every plugin finds its section quiet, the last of a name root enum or not |
| `DoctorLimits.SettlesExactlyForSafeNames` | packages/cli/src/config-doctor.ts:121-424 | the whole doctor reaches its fixpoint on every config with distinct keys, whatever the schema says of properties with ordinary names, exactly when the required names are safe |
| `DoctorLimits.UnsafeNameUnsettles` | packages/cli/src/config-doctor.ts:397-413 | for every unsafe required name a config whose repair a second diagnosis fixes again: an array the name's sub-schema allows no element, or for a path that names an inherited property an empty section |
| `DoctorLimits.EarlierEnumUnsettles` | packages/cli/src/config-doctor.ts:390-416 | why an earlier plugin of the same name may have no root enum: two such plugins and a config that needs a second pass |
| `DoctorSaved.SavedRepairSettles` | packages/cli/src/slash-commands/doctor.ts:187-213 | what the command leaves in the file needs no fix exactly when the file needed none, or fixes are applied and, keys renamed, neither maxConcurrent nor a delay reads as infinity and every plugin section, purged and printed, has no removable error |
| `DoctorSaved.SectionsThatStay` | packages/cli/src/slash-commands/doctor.ts:187-213 | sections do stay, in particular, when printing leaves them as they are, and when no plugin has a schema |
| `DoctorSaved.SurviveIffStay` | packages/cli/src/config-doctor.ts:388-416 | the plugins' sections are valid as they are printed exactly when each section of the input, taken through the purges of the plugins of its name, has no removable error left when printed |
| `DoctorSaved.RulesKeepInfinity` | packages/cli/src/config-doctor.ts:203-312 | the repairs neither bring infinity into those numbers nor take it out |
| `DoctorSaved.InfinityIsNotSaved` | packages/cli/src/slash-commands/doctor.ts:187-213 | the smallest config whose saved repair needs another: maxConcurrent as the text Infinity |
| `DoctorSaved.OverRangeIsLostOnSaving` | packages/cli/src/slash-commands/doctor.ts:187-213 | the number 1e999 there is lost when anything else is fixed: with version 2 beside it the file is rewritten with null |
| `DoctorSaved.OverRangeAloneIsKept` | packages/cli/src/slash-commands/doctor.ts:187-213 | alone it is not reported, nothing is written, and the file keeps it |
| `DoctorSections.ExtensionsHonest` | packages/cli/src/config-doctor.ts:367-417 | for plugins whose schemas name nothing that every object inherits, the extensions pass reports a fix exactly when what is written changes |
| `DoctorSections.EntriesTrusted` | packages/cli/src/config-doctor.ts:314-365 | the plugins array: a fix is reported exactly when what is written changes, and what is left needs none |
| `DoctorSections.AutonomyTrusted` | packages/cli/src/config-doctor.ts:240-312 | the same for the autonomy block |
| `ConfigDoctor.DiagnoseConfig` | packages/cli/src/config-doctor.ts:121-424 | the diagnosis, section by section on the edited object, is the function these theorems are about; what it writes into each field is stated by the lemmas of `DoctorValues` |
| `ConfigDoctor.RenameUnknownKeys` | packages/cli/src/config-doctor.ts:128-150 | the loop over the snapshot of keys |
| `ConfigDoctor.FixAutonomy` | packages/cli/src/config-doctor.ts:240-312 | the autonomy section with its loops |
| `ConfigDoctor.FixPlugins` | packages/cli/src/config-doctor.ts:314-365 | the plugins section: entries kept, repaired in place or removed |
| `ConfigDoctor.FixExtensions` | packages/cli/src/config-doctor.ts:367-417 | the extensions section: removal of scalars, then each plugin's schema errors |
| `ConfigRepair.RulesHonest` | packages/cli/src/config-doctor.ts:121-417 | passes that each report exactly their changes, on distinct keys, together report exactly their changes: no repair undoes another |
| `ConfigRepair.RulesSettle` | packages/cli/src/config-doctor.ts:121-417 | passes that each settle, on distinct keys, settle together |

## Left out

- HQ server: HTTP routing, tokens, persistence, alerting, the audit and event logs, and forwarding of single events; frame and payload validation beyond the command poll. `HqServer.HqState` covers the queues, the client and browser sets and the broadcaster.
- HqSnapshot.BuildSnapshot: timestamps, process ids, versions, capabilities, the `sessions` and `fleets` summary projections; two sockets of one client id share a record, and commands go to the first of them, as in the source.
- TranscriptRings.RingStore.Append: rings are values in the map, so the aliasing of the stored entry array is not captured; a ring is updated only through its map entry.
- WorkerPool.MapWithConcurrency: the rejection is reported when the pool has come to rest, where `Promise.all` tells the caller at the first one and the clean-up of the sandbox may overtake the workers that run on. A call that never settles is not modelled.
- Benchmark: process spawning, work directories, grading and the run's own status parsing; measurements are a function of the pair. Floating-point rounding is not modelled, so sums do not depend on order.
- Configuration history: the text of the change summary (whether it throws is modelled), timestamps, directory creation, failing reads and writes in the middle of a command, index and entry files edited by hand, and concurrent appends. The parent-directory check of the delete guard always passes because every path is built under the `.wrongstack` directory.
- Configuration doctor: the wording of findings, and the validator below a section's own properties, which is any function of the value that says where below the property it finds errors. A plugin named `__proto__`, for which a missing section reads as `Object.prototype` itself. The sibling backup and the failing history entry of `/doctor fix` are left out; what it writes to the file is modelled.
- Pickers: columns, colours, saved-provider marks and the cursor movement escapes; a frame is a list of rows. Lower-casing and trimming cover ASCII. The provider picker's handler is a class; the model picker is the same machine with the newest-first list and a cursor bound of 15.
- FleetLine.LineFits: visible length counts characters, where the source counts UTF-16 code units; neither counts terminal cells, so wide characters may take more room.
- FleetStatusLine.StatusLine.HandleEvent: handlers are registered once; calling `start` twice, which would count every event twice, is not modelled. Clearing the old bottom row after a resize is left out, as in the source.
- ArgParser: `parseAuthFlags` and `parseSpawnFlags`. Setting a flag named `__proto__` does nothing, as in the source; reading one that was never set, which finds `Object.prototype`, is left out.
- PluginList: alias resolution of plugin names, the `llm` and `list` commands and their reports, and writing the file.
- KeyStore: encryption and file writing around the provider entry.
- The rest of the command line and dashboard: wiring, process control and user interface.
