# devpit: a verified model

devpit polls code forges, keeps what it sees in an append-only event log, and shows one ranked
list of the work that needs attention. This project models the parts of it whose correctness is
about runs, not about single calls, and proves what they promise.

* **The event log and the poll cycle.** `Store.dfy` (module `Storage`) is the events table with
  its five-column uniqueness, its two readers of "the latest fact", the cursors and the sync log.
  `Engine.dfy` is the poll cycle of one connection: identity, backoff gate, poll, the diff of a
  complete sweep against the log (`reap`), events before cursors, one sync-log row. `Reaping.dfy`
  says what that diff must be and `Visibility.dfy` what it does to every item, `Protocol.dfy` puts
  any number of connections, crashes and failed polls into one state machine.
  `Refinement.dfy` shows that one cycle of the engine is a short sequence of its steps, and
  `EngineRuns.dfy` that every run of cycles of any connections is a run of it, with the
  protocol's main laws restated for the engine. `LeavingSweep.dfy` says what the roles on an
  item's latest snapshot decide when it leaves the sweeps, `RowTimes.dfy` who wrote each row and
  when. `Convergence.dfy` repeats one sweep; `Backoff.dfy` and `CycleRuns.dfy` space failures
  apart, and `CycleOutcomes.dfy` says what each outcome logs, announces and does to the gate.
* **The attention fold.** `FoldView.dfy` says what the ranked list of a log is, without loops.
  `FoldMethods.dfy` computes it as the program does, loop by loop. `FoldLaws.dfy`,
  `FoldOrder.dfy`, `FoldChanges.dfy` and `FoldReaders.dfy` prove that the list is determined, how
  far it depends on the order of rows, what compaction and broken builds can change, and that all
  readers of the log agree. `FoldClock.dfy` traces the dates in the list back to provider and
  poll times. `States.dfy` is the signal table and `StateLaws.dfy` what the chips say and how they
  change with an item. `Pinning.dfy` is the "Handle next" zone.
* **The providers.** `GitHub*.dfy` and `GitLab*.dfy` are the batched GraphQL joins, the carrying
  forward of enrichment and gates over failed reads, the snapshot caches, GitHub's role
  aggregation and GitLab's verdict baselines. `GitHubCalls.dfy` and `GitLabCalls.dfy` show that
  runs of the providers' own polls are the cache and verdict runs that the laws speak of;
  `GitHubDegraded.dfy` and `GitLabDegraded.dfy` say when a failed join repeats the last joined
  one, and `Resurrection.dfy` and `ResurrectionRun.dfy` what brings back an item that a sweep
  removed. `JoinOrder.dfy` states what a join may do to a sweep, and `EndToEnd.dfy` composes
  provider, join, diff and log: no GraphQL failure hides a live item. `PullToList.dfy` adds the
  fold, from a search hit to the row in the list. `NativeIDs.dfy`,
  `GitHubScopes.dfy`, `GitHubEffects.dfy` and `GitLabEffects.dfy` follow what the forge says
  forward: from ids, search rows, notifications, todos and answers to the cached facts, the
  verdict signals and the chips.
* **The dashboard.** `Dashboard.dfy` is the class with its generation counters, stale flag and
  retry timer; `DashboardRuns.dfy`, `DashboardLaws.dfy`, `DashboardStale.dfy`,
  `DashboardRetry.dfy` and `DashboardLoads.dfy` prove laws over every interleaving of starts,
  settlements and timers. `Retry.dfy` is the delay policy.

Objects that the program updates in place are classes here, and its loops are loops; each method
is proved against a specification function or predicate, and the laws are lemmas about those.
I/O is a parameter: which statement of a transaction fails, what the forge answers for each item
and which batches fail, what `ResolveOpen` says, when requests settle. Times are integers, 0 being
Go's zero time.

`dafny verify dfyconfig.toml` checks the whole project.

## Where the code and its documents part

* `docs/Semantic_Invariants.md:307-311` promises that an older success or failure never overwrites
  a newer snapshot. A hydrate's failure branch compares only the hydrate generation
  (`frontend/src/lib/dashboard.svelte.ts:149`). So a failing hydrate marks a list stale that a newer
  attention refresh has just brought (`DashboardLaws.OlderFailureDefaces`), and before the first
  load has finished it puts a load error in that list's place
  (`DashboardLaws.ColdFailureDefaces`). `DashboardLaws.DefacesExactly` covers both: it happens if
  and only if the failing request is the newest hydrate, a newer request's list is held, and the
  mark, the stale flag or the load error, is not up already. Older successes keep the promise
  (`DashboardLaws.OlderSuccessSpares`).
* The same dashboard can end a first load with an empty list that is not stale and without error
  or retry: an attention refresh that fails before the first load has finished is forgotten
  (`frontend/src/lib/dashboard.svelte.ts:169`). `DashboardStale.EarlyFailureForgotten` is such a
  run; `DashboardStale.HonestExactly` shows that this is the only way in which the page shows a
  list that is neither the newest request's nor marked stale.
* The order of rows can matter to `Since`: the scan for the earliest mention takes a zero time for
  "none yet" (`internal/attention/fold.go:303-318`). `FoldOrder.OrderIndependent` and
  `FoldOrder.OrderMatters` give the exact condition, `FoldOrder.OrderCanMatter` a log that meets
  it. `List` reads the rows by ascending id (`internal/storage/events.go:117`), so only another
  caller of `Fold` can see two orders.
* A sweep of which no GraphQL node came back while no batch failed passes through GitLab's join
  untouched (`provider/gitlab/graphql.go:465-467`), and with it reads that know no gate.
  `GitLabSafety.GateSurvives` is exact about it, and `GitLabCalls.PassThroughLosesGate` is a run
  of two sweeps that loses a gate.
* On GitLab a wholly failed join need not repeat the last joined snapshot, as it does on GitHub:
  flags are carried by OR (`provider/gitlab/graphql.go:539-542`), so a marker that REST raises and
  the join had taken down comes back. `GitLabDegraded.DegradedFixedPoint` gives the condition,
  `GitLabDegraded.MarkerComesBack` a list row on which it happens.
* An item that a sweep removed does not always stay hidden until REST sees it again
  (`ADR/ADR-0024_Reconcile_Item_Reaping.md:82-89`). On GitHub it does
  (`Resurrection.HubStaysHidden`). GitLab's sweeps evict nothing that they miss, so the open-set
  refresh goes on reading a merged merge request and emitting it as open
  (`provider/gitlab/graphql.go:671-730`), and facts that are new to the log bring it back until the
  next complete sweep. `Resurrection.RefreshDecides` gives the condition,
  `ResurrectionRun.MergedReturns` a run. The program guards against it where a todo finds the item
  closed (`provider/gitlab/fastpoll.go:68-70`) and for archived projects (lines 138-140 of the
  ADR), not where a sweep misses it.
* The diff removes a role-bearing item that a complete sweep misses without asking
  (`internal/engine/cycle.go:233`, `ADR/ADR-0024_Reconcile_Item_Reaping.md:55-59`), but it reads
  the role off the item's latest fact, and that need not be the snapshot of the sweep before. When
  a notification has stored a snapshot without role in between, a sweep that repeats its older,
  role-bearing snapshot is ignored as a duplicate; the PR then counts as one without role, and
  stays if `ResolveOpen` fails. `LeavingSweep.FoundThenMissed` gives the exact condition for a PR
  that one GitHub sweep finds and the next one misses, `LeavingSweep.SwallowedSweepStays` such a
  run for any facts with a role and any without.
* "The log's latest row is the latest poll" is false: a poll that returns to an older snapshot is
  ignored as a duplicate. `Protocol.LatestEqualsPoll` gives the condition, `Protocol.AbaIsIgnored`
  the example.

## Model

| member | source | states |
|---|---|---|
| Storage.Store.WriteEvents | internal/storage/events.go:25-77 | One transaction: on success the log is the old one plus every event whose five-column key is new, the count is the growth, and each row added carries the connection and the time of the write; a failure at any statement or at the commit leaves the log as it was |
| Storage.Store.LatestItemFacts | internal/storage/events.go:229-257 | Exactly one fact per item of the connection that has any, and it is the item's latest fact |
| Storage.Store.AllOpenTicketKeys | internal/storage/events.go:168-208 | No duplicates, and a key is returned if and only if the latest fact of some item reads as open and carries it |
| Storage.Store.LoadCursors | internal/storage/cursors.go:12-31 | Exactly the connection's cursors |
| Storage.Store.SaveCursors | internal/storage/cursors.go:35-65 | Upsert: the given keys take their new values, every other cursor of every connection stays; nothing changes on failure |
| EventLog.LatestFactIsNewest | internal/storage/events.go:229-257 | No snapshot or removal of the item has a greater id than its latest fact |
| EventLog.InsertAllShape | internal/storage/events.go:36-71 | A write only appends, keeps ids increasing and keys unique, and afterwards the log holds every event written |
| EventLog.InsertAllStored | internal/storage/events.go:36-71 | Writing events that are all stored already changes nothing |
| EventLog.InsertAllStamps | internal/storage/events.go:36-71 | Every row that a write adds carries all columns of an event of the batch, the connection, the time of the write as observed_at, and the next id |
| Reaping.RemovalIsFresh | internal/engine/cycle.go:225-257 | In every log that satisfies the invariant, the removal keyed to an item's latest snapshot is new, so INSERT OR IGNORE cannot swallow it |
| Reaping.SaltIsFresh | internal/engine/cycle.go:258-269 | A snapshot salted with its item's latest removal is new, so it cannot be swallowed either |
| Visibility.CompleteKeepsInv | internal/engine/cycle.go:182-272 | A complete sweep keeps the log invariant, every removal it requires lands, and each item that must be reaped ends with a removal as its latest fact |
| Visibility.Exit | internal/engine/cycle.go:225-257 | After a complete sweep an unswept item is visible if and only if it was visible, holds no role, and ResolveOpen listed it as open or failed |
| Visibility.Reentry | internal/engine/cycle.go:258-269 | After a complete sweep an item swept as open is visible if and only if its previous latest fact was not a closed or unreadable snapshot, or some swept key was new |
| Engine.Conn.IndexFacts | internal/engine/cycle.go:197-222 | The engine's index by native id agrees with the log's latest facts: open, roled, removed, and the row id |
| Engine.Conn.ConfirmGone | internal/engine/cycle.go:277-298 | Exactly the leftovers that the provider answered without, each once; nothing when the call fails, and success without a call when there is none |
| Engine.Conn.Reap | internal/engine/cycle.go:182-272 | Exactly one removal per item that must be reaped, keyed to its latest snapshot; every swept snapshot whose item was removed is salted in place and nothing else is touched |
| Engine.Conn.Fail | internal/engine/cycle.go:302-350 | One sync-log row with the error's class, in the table unless the log itself fails, one step of backoff no shorter than the provider's hint, one SyncFailed, and a renewed identity check after 401 |
| Engine.Conn.Persist | internal/engine/cycle.go:118-160 | The success path and each of its three storage failures: what is in the log, whether the cursors moved, the sync-log table, the notices and the gate; the removals are the required ones whenever the diff ran |
| Engine.Conn.Cycle | internal/engine/cycle.go:62-111 | How every cycle ends and the whole state it leaves, sync-log table included; a failed poll changes neither log nor cursors |
| Engine.EndIsDecided | internal/engine/cycle.go:62-160 | The end of a cycle follows from its inputs and the log alone: any two diffs of the same sweep end it alike |
| Engine.ReapedIsReap | internal/engine/cycle.go:225-257 | The removals for the roled leavers and the confirmed leftovers are exactly the required ones |
| Refinement.CycleRefinesProtocol | internal/engine/cycle.go:62-160 | A finished cycle moves log and cursors as a short sequence of protocol steps does |
| EngineRuns.EngineRunIsProtocolRun | internal/engine/cycle.go:62-160 | Every run of cycles of any connections over one store is a run of the protocol that passes through the log and the cursors of each cycle and takes its write as a step |
| EngineRuns.EngineAtLeastOnce | internal/engine/cycle.go:113-139 | After any cycles, whatever failed in them, each stored cursor was polled by a succeeded cycle of its connection whose events are all in the log |
| EngineRuns.EngineReconcileDecides | internal/engine/cycle.go:118-272 | A cycle that writes a complete sweep decides the visibility of every item of its connection, by exit or by re-entry |
| EngineRuns.EngineEpisodes | internal/engine/cycle.go:225-240 | Two removals of one item in the engine's log are separated by a snapshot, to which the later one is keyed |
| EngineRuns.EngineLogInv | internal/engine/cycle.go:182-272 | The log keeps its invariant through every run of the engine |
| RowTimes.EngineRowsDated | internal/storage/events.go:36-71 | After any engine run each row was added by one cycle of its connection, from an event of that cycle's poll or diff, and carries that cycle's clock; ids count from 1 without a gap |
| LeavingSweep.RolesDecide | internal/engine/cycle.go:219-257 | In any run of the protocol, when a complete sweep misses an item whose latest fact is an open snapshot: with a role on it the item is removed whatever ResolveOpen answers; without one it is removed if and only if ResolveOpen answers without listing it, and otherwise its fact stays and is visible |
| LeavingSweep.EngineRolesDecide | internal/engine/cycle.go:219-257 | The same for every cycle of an engine run that wrote a complete sweep |
| LeavingSweep.SweepLeavesRole | internal/engine/cycle.go:182-272 | A complete sweep that saw the item open under a role leaves a role-bearing open snapshot as its latest fact if and only if there was one before, or a removal, or some swept key was new |
| LeavingSweep.FoundThenMissed | internal/engine/cycle.go:225-257 | A PR that one GitHub sweep found and the connection's next one misses is removed whatever ResolveOpen answers if its latest fact before the first sweep carried a role or was a removal, or the log did not hold that sweep's snapshot; otherwise it stays if and only if it was visible and ResolveOpen fails or lists it |
| LeavingSweep.SwallowedSweepStays | internal/engine/cycle.go:225-257 | For any facts with a role and any without there is a run in which the last sweep found the PR under a role, the next one misses it, and it stays visible |
| LeavingSweep.FailedProbeNeverReaps | provider/github/reconcile.go:33-127 | A GitHub sweep is complete if and only if no sole-approver probe of a PR row failed, and a cycle that writes one that is not complete adds no removal |
| Protocol.AtLeastOnce | internal/engine/cycle.go:113-139 | At every point of every run, crashes included, all events of the poll that produced a stored cursor are in the log, and the log never shrinks |
| Protocol.ReplayInsertsNothing | internal/engine/cycle.go:58-61 | Replaying a poll whose cursors were lost in a crash inserts nothing, whatever was written since |
| Protocol.Episodes | internal/engine/cycle.go:225-240 | In every reachable log two removals of one item are separated by a snapshot of it: the later one is keyed to it and directly follows it among the item's facts |
| Protocol.SaltFollowsRemoval | internal/engine/cycle.go:258-269 | In every reachable log a salted snapshot has a higher id than the removal of the same item that its key names |
| Protocol.ReconcileDecides | internal/engine/cycle.go:118-272 | In every run a persisted complete sweep decides the visibility of every item of its connection, by exit or by re-entry |
| Protocol.FalseReapHeals | internal/engine/cycle.go:258-269 | An item that a sweep removed returns with the next sweep that sees it open, even with identical facts |
| Protocol.PartialDecides | internal/engine/cycle.go:119-132 | A poll that is no complete sweep brings a hidden item back if and only if it carries a snapshot under a new key |
| Protocol.AbaIsIgnored | internal/storage/events.go:36-71 | A poll that returns to an older snapshot leaves the middle one as the latest fact |
| Protocol.ReapUnaffectedByOthers | internal/engine/cycle.go:182-272 | Rows that other connections append between the diff's read and its write change neither salts nor removals |
| Convergence.Converges | internal/engine/cycle.go:118-272 | Repeating one sweep with fixed answers: only the first persist removes, the second adds at most one row per snapshot salted in the first, the third and later ones add nothing |
| Backoff.RetryGate.RateLimit | internal/engine/backoff.go:36-43 | The streak grows by one and the gate shuts for the exponential step or the hint, whichever is longer |
| CycleRuns.FailuresSpread | internal/engine/backoff.go:18-49 | Without a success between, the failure m places after the first starts at least 2^m - 1 minutes later for m up to 5 and 31 + 16(m - 5) minutes beyond, whatever the hints |
| CycleRuns.BoundIsMet | internal/engine/backoff.go:28-49 | The bound is exact: there is a run of cycles from health, all failing as soon as the gate opens, whose failures lie exactly the bound apart |
| CycleRuns.OneRowOneNotice | internal/engine/cycle.go:302-418 | Over any run the sync-log rows attempted and the SyncCompleted and SyncFailed notices are each as many as the cycles that ran to an outcome |
| CycleOutcomes.FailureIsLogged | internal/engine/cycle.go:302-379 | A provider failure leaves log and cursors alone, sends one SyncFailed and logs one row under its kind: auth, rate limit, server from status 500 up, unexpected below, parse, network; the row counts the streak and names a next retry for a rate limit alone, the time at which the gate opens |
| CycleOutcomes.FailureShutsGate | internal/engine/backoff.go:26-50 | After a failure the gate stays shut for exactly 60, 120, 240, 480 or 960 seconds by the streak, or for the provider's hint where that is longer |
| CycleOutcomes.SuccessIsLogged | internal/engine/cycle.go:140-160 | A success is logged as degraded or ok with the rows it added, announces a change if and only if the log changed and before its completion, and opens the gate |
| CycleOutcomes.StorageFailureIsLogged | internal/engine/cycle.go:164-176 | A storage failure is logged as one with the rows that landed before it, moves no cursor, and fails the sync |
| States.StatesFor | internal/attention/states.go:62-110 | The chips are exactly the states that match, each once, in precedence order |
| StateLaws.OwnGateShows | internal/attention/states.go:93-104 | On my own item that is no draft, exactly one of the ready, blocked and checking chips shows, and it is the one that the gate names |
| StateLaws.DraftHides | internal/attention/states.go:87-104 | Turning an item into a draft takes away exactly the review_requested, blocked, ready, auto-merge and running chips and adds none |
| StateLaws.SubmittingReview | internal/attention/states.go:78-120 | Submitting my review replaces review_requested by review_submitted, raises changes_requested if and only if I asked for changes, touches no other chip, and mutes the row if and only if I am neither author nor sole approver |
| StateLaws.BystanderSees | internal/attention/states.go:78-110 | Without author, reviewer or sole-approver role only a mention and an unknown gate show, and the row is never muted |
| StateLaws.SoleApproverSees | internal/attention/states.go:78-110 | A sole approver sees the author's chips but for the verdicts, and owes a review until one is submitted |
| StateLaws.ArmingAdds | internal/attention/states.go:99-100 | Arming auto-merge adds its one chip, on my own item that is no draft alone |
| StateLaws.RunningAdds | internal/attention/states.go:101-102 | Running checks add their one chip, on my own item that is no draft alone |
| StateLaws.MentionAdds | internal/attention/states.go:95-96 | A mention adds the mention chip and touches no other |
| StateLaws.LeadingChip | internal/attention/states.go:26-40 | The leading chip is the first of the documented precedence that shows |
| FoldMethods.ScanItem | internal/attention/fold.go:145-190 | One pass finds the newest snapshot, the newest removal, the signals, the mentions and the snapshots of a group |
| FoldMethods.NewestSignalTime | internal/attention/fold.go:405-430 | The latest signal time, ci_failed left out on request, or the snapshot's own time when there is none |
| FoldMethods.OnsetForCondition | internal/attention/fold.go:353-366 | The time of the oldest snapshot in the latest unbroken run that satisfies the condition |
| FoldMethods.ComputeSince | internal/attention/fold.go:276-348 | Exactly the onsets of the item's states and markers |
| FoldMethods.FoldItem | internal/attention/fold.go:145-263 | The item if and only if its newest snapshot is open, readable and later than every removal, and then its view |
| FoldMethods.BandFollowsRecency | internal/attention/fold.go:453-478 | Under any thresholds the age band never changes the order by recency and id |
| FoldMethods.Fold | internal/attention/fold.go:116-139 | The list holds the view of every shown item once, by recency and then id |
| FoldLaws.ViewUnique | internal/attention/fold.go:145-263 | An item's rows and its earliest mention determine every field of it |
| FoldLaws.RankedUnique | internal/attention/fold.go:468-478 | There is one ranked list of a given set of items |
| FoldOrder.OrderIndependent | internal/attention/fold.go:116-139 | The same rows in any order fold to the same list, if no shown item's mentions are order-sensitive |
| FoldOrder.OrderMatters | internal/attention/fold.go:303-318 | And if one is, two orders of the log have no list in common |
| FoldOrder.OrderCanMatter | internal/attention/fold.go:303-318 | Three rows of one item are such a log: under any configuration two orders of them have no list in common |
| FoldChanges.CompactionKeepsList | internal/attention/fold.go:157-263 | Deleting any superseded snapshots changes no field of any item but Since, and no order |
| FoldChanges.OldItemUnmoved | internal/attention/fold.go:202-220 | For an item that is old without ci_failed, adding or deleting ci_failed signals changes nothing but the signal counts |
| FoldChanges.BrokenBuildsDoNotResurrect | internal/attention/fold.go:202-220 | Two logs that differ only in ci_failed signals of such items fold to the same list, in the same order, but for the signal counts |
| FoldReaders.FoldAgreesWithLatestFact | internal/attention/fold.go:157-190 | The list holds an item if and only if its latest fact is a readable open snapshot, and shows that snapshot |
| FoldReaders.LatestSnapshotIsListed | internal/attention/fold.go:145-272 | An item whose latest fact is an open snapshot is in the list once, with all facts of that snapshot and its chips |
| FoldReaders.TicketKeysAgree | internal/storage/events.go:168-208 | The ticket keys are those of the list over the whole log, plus those of open snapshots of which only state and ticket keys decode |
| FoldReaders.SinceIsExact | internal/attention/fold.go:276-348 | Since has an entry for a tag if and only if the item carries it, where no time is zero |
| FoldReaders.OnsetStartsRun | internal/attention/fold.go:353-366 | Each entry but the mention's is the time of the snapshot that starts the latest unbroken run |
| FoldClock.SnapshotDates | internal/attention/fold.go:391-430 | An item without signals is dated by the provider's time on its current snapshot, or by its poll where there is none, under every configuration; that date, the clock and the thresholds decide old and stale |
| FoldClock.SignalDates | internal/attention/fold.go:405-430 | An item with signals is dated by the latest of them, by provider time or else poll time; a ci_failed signal only where no age threshold guards |
| FoldClock.ListedByProviderTime | internal/attention/fold.go:465-480 | Of two items without signals the one that the provider updated later is listed first, whenever either was polled; ties go by id |
| FoldClock.OnsetDates | internal/attention/fold.go:353-376 | Each onset but the mention's is the provider's time of the snapshot that starts the latest unbroken run, or the time of its poll |
| FoldClock.MentionShows | internal/attention/states.go:95-96 | The mention chip shows if and only if the item has a mention signal |
| FoldClock.MentionDates | internal/attention/fold.go:303-318 | The mention's onset is the time of the item's first mention, when every mention has a time |
| FoldClock.CountedIsRepeated | internal/attention/fold.go:432-450 | A kind of signal is counted if and only if the item has two of them |
| FoldClock.PollTimeDates | internal/attention/fold.go:424-430 | After any engine run, an item without signals whose current snapshot has no provider time is dated by the clock of the cycle that wrote that snapshot |
| Pinning.Pin | internal/attention/fold.go:485-516 | The served list is the sorted zone of flagged items followed by the others |
| Pinning.ServedContents | internal/attention/fold.go:485-516 | The served list holds every item once, marked when it is flagged, and nothing for a flag without item |
| Pinning.ServedOrder | internal/attention/fold.go:485-516 | Flagged items come first, in the order of their flags |
| Pinning.RestInOrder | internal/attention/fold.go:485-516 | The other items keep their ranked order |
| GitHubProvider.Provider.RunBatches | provider/github/graphql.go:331-359 | Whatever the batch size, the results are the per-item joins of the items whose batches answered; degraded if and only if some item has none; an error if and only if some batch was rate limited |
| GitHubProvider.Provider.ReadNode | provider/github/graphql.go:102-188 | The approvals, my own last review and the verdict signals of a PR's latest reviews |
| GitHubProvider.Provider.GraphqlJoin | provider/github/graphql.go:381-476 | The output for the results of the answered batches, the cache without archived items, and everything untouched on a rate limit |
| GitHubProvider.Provider.PruneClosedSnapshots | provider/github/reconcile.go:129-149 | After a complete sweep the entries that the sweep does not hold open are gone, the others untouched; an incomplete one prunes nothing |
| GitHubProvider.Provider.CacheOpenSnapshots | provider/github/fastpoll.go:101-122 | In the order of the events each open snapshot is stored and each closed one evicts its item |
| GitHubCalls.LastSnapshotDecides | provider/github/fastpoll.go:101-122 | Each item's last snapshot decides its entry: stored when open, evicted when not |
| GitHubCalls.UnreadStays | provider/github/fastpoll.go:101-122 | An item that the poll did not read keeps its entry |
| GitHubCalls.SweepDecidesCache | provider/github/reconcile.go:129-149 | After caching and pruning a complete sweep an item is cached if and only if its last snapshot is open |
| GitHubCalls.CacheIsSweep | provider/github/reconcile.go:129-149 | With one snapshot per item the cache's keys are then exactly the sweep's open items |
| GitHubProvider.Provider.Reconcile | provider/github/reconcile.go:33-117 | It succeeds if and only if no batch is rate limited, and otherwise changes nothing; then the joined sweep, the next cache, degraded if and only if some item got no result, complete if and only if no sole-approver probe failed |
| GitHubProvider.Provider.FastPoll | provider/github/fastpoll.go:19-99 | The same for a notification poll, which is never complete |
| GitHubCalls.CallsAreCacheRun | provider/github/fastpoll.go:101-122 | Every run of sweeps and notification polls is a run of the cache |
| GitHubCalls.ProviderGateStable | provider/github/graphql.go:421-456 | So over every such run a known gate stays known while its PR stays cached and no draft |
| GitHubCalls.RestIsProvider | provider/github/reconcile.go:49-102 | Both calls hand the join snapshots and signals under provider keys only |
| GitHubSweep.SweepAggregatesRoles | provider/github/reconcile.go:49-102 | One open snapshot per PR found, in order of first appearance, with exactly the roles of the scopes that found it, sorted |
| GitHubScopes.HitIsSwept | provider/github/reconcile.go:33-127 | A PR with a counting row has exactly one snapshot in the sweep, open, with the facts of its first such row and exactly the roles of the scopes whose rows count, by name; a sole-approver row counts when its probe said yes |
| GitHubScopes.UncountedIsNotSwept | provider/github/reconcile.go:33-127 | A PR of which no row counts has none |
| GitHubScopes.ReviewerHitSignals | provider/github/reconcile.go:33-127 | Each reviewer row of a PR raises a review request dated by the row |
| GitHubScopes.SignalIsReviewerHit | provider/github/reconcile.go:33-127 | And every signal of the sweep comes from such a row |
| GitHubScopes.NotificationBrings | provider/github/fastpoll.go:19-99 | Each notification brings its PR's snapshot and the signal of its reason, dated by it, unless it is noise; a closed PR is no noise |
| GitHubScopes.FeedIsNoNoise | provider/github/fastpoll.go:19-99 | And every event of the feed is of a notification that is no noise |
| NativeIDs.PullIDsParse | provider/github/graphql.go:557-587 | For every owner, repository name and number, owner/name#number is an id that the join reads |
| NativeIDs.ParseableIsPullID | provider/github/graphql.go:557-587 | And the join reads no other id |
| GitHubEffects.JoinAchieves | provider/github/graphql.go:381-478 | Whatever else a poll holds and fails at, an open PR ready for review whose batch of thirty answers is emitted once and cached with the answer's decision, approvals, my review, auto-merge and branches, and with the gate and markers that its merge state names |
| GitHubEffects.JoinLeavesGateUnknown | provider/github/graphql.go:524-556 | A merge state that names no gate leaves a search row without gate, detail and markers, unless the cache knows the PR as ready or blocked |
| GitHubEffects.ApprovalsAreCounted | provider/github/graphql.go:126-134 | The approvals are the number of approving reviews |
| GitHubEffects.MyLastReviewCounts | provider/github/graphql.go:135-137 | My review state is what my last review says |
| GitHubEffects.OwnPullShows | provider/github/normalize.go:35-57 | After such a poll my own PR shows ready if and only if its merge state is clean, has_hooks or unstable, blocked if and only if it is blocked, dirty or behind, never checking; changes_requested and auto-merge as the answer says |
| GitHubEffects.ReviewedPullShows | provider/github/graphql.go:206-217 | After such a poll a PR that I review shows review_submitted and is muted if and only if my last review is a submitted one, and review_requested otherwise |
| GitHubEffects.UnreviewedPullShows | provider/github/graphql.go:206-217 | And review_requested when I wrote none |
| GitHubEffects.ReviewIsReported | provider/github/graphql.go:138-166 | Such a poll reports each dated approval and request for changes, with its reviewer and its time |
| GitHubEffects.ReportIsVerdict | provider/github/graphql.go:138-166 | And every reported verdict is one, on a PR that is no draft |
| GitHubEffects.VerdictKeysDiffer | provider/github/graphql.go:138-166 | Two verdicts of one reviewer that differ in kind or time have different keys |
| GitHubEffects.ClosedAndDraftsAreSilent | provider/github/graphql.go:440-458 | The join reports nothing of a PR that is closed or a draft |
| GitHubProvider.ItemsAreListed | provider/github/graphql.go:382-396 | The join's items are exactly the snapshots with a parseable id, each once, in order |
| GitHubRuns.GateStable | provider/github/graphql.go:421-456 | Over any run of successful, degraded and failed polls, while a PR with a parseable id stays cached and no draft, a known gate stays known |
| GitHubRuns.SettledStays | provider/github/graphql.go:524-556 | Over such a stretch a gate that was ready or blocked once is one of the two ever after |
| GitHubRuns.EmittedGatesStable | provider/github/graphql.go:528-555 | And so do the gates of all open non-draft snapshots emitted meanwhile |
| GitHubRuns.GatesMatchDetail | provider/github/normalize.go:35-57 | In every run each cached or emitted payload is fixed by re-applying the merge state of its detail: gate and markers agree with it, whatever was carried over |
| GitHubRuns.DegradedFixedPoint | provider/github/graphql.go:506-555 | A join without result rebuilds the payload of the last successful one if and only if the REST branches are empty or agree with it and, on a draft, the join said nothing that a draft does not carry |
| GitHubSafety.SurvivorsInOrder | provider/github/graphql.go:464-475 | The output is the input in its order without archived items, types, ids and times untouched |
| GitHubSafety.SweptByJoin | provider/github/graphql.go:464-475 | The swept set of the output is that of the REST sweep without archived items |
| GitHubSafety.FailureNeverReaps | provider/github/graphql.go:331-476 | After the diff against the log, an item is removed only if the REST sweep missed it or the forge answered that its repository is archived |
| GitHubSafety.BatchSizeIrrelevant | provider/github/graphql.go:331-359 | Batching at any two sizes agrees on every item that both answered |
| GitHubDegraded.OneRepeats | provider/github/graphql.go:506-555 | Per PR: a poll without result for an open PR with unchanged REST facts emits its last joined snapshot again, key included, if and only if the cache can rebuild it; nothing is asked of other items |
| GitHubDegraded.DegradedPollsStoreNothing | provider/github/graphql.go:426-456 | Over any number of such polls, while the entry stays cached, each event of the PR is stored already unless REST itself brings a new signal |
| GitHubDegraded.DegradedPollsKeepFacts | provider/github/graphql.go:426-456 | So none of them adds a snapshot of the PR to the log |
| GitHubDegraded.DegradedStoresNothing | provider/github/graphql.go:426-456 | Where that holds of every PR of a stored poll, a wholly failed poll with the same REST events inserts nothing |
| GitLabVerdicts.VerdictMachine.EmitNewVerdictSignals | provider/gitlab/graphql.go:311-360 | One signal for exactly the actors whose verdict changed and whose note is found and dated; the new baseline; nothing on a draft |
| GitLabVerdicts.VerdictMachine.MatchVerdictNotes | provider/gitlab/graphql.go:391-412 | For each changed actor the first matching system note |
| GitLabVerdicts.HistoryIsSilent | provider/gitlab/graphql.go:320-326 | Over any run, a verdict held since a merge request was first seen is never reported |
| GitLabVerdicts.BaselineCatchesUp | provider/gitlab/graphql.go:335-359 | With no change, or a working notes fetch, the baseline becomes the verdict set |
| GitLabVerdicts.BaselineWaits | provider/gitlab/graphql.go:328-345 | Over any stretch without notes the baseline is the old one restricted to the actors present throughout |
| GitLabVerdicts.PendingIsReported | provider/gitlab/graphql.go:311-360 | However many fetches failed, the first that works reports for each actor exactly the first matching note if its verdict is not the one before them or the actor was gone between, and nothing otherwise |
| GitLabVerdicts.SignalUsesNewestNote | provider/gitlab/graphql.go:391-441 | A signal is dated by the newest matching note |
| GitLabVerdicts.SignalsAreSeparated | provider/gitlab/graphql.go:311-360 | Over any run, between two signals for one actor its verdict changed or vanished |
| GitLabVerdictRuns.StagesAreVerdictRun | provider/gitlab/graphql.go:487-522 | Over any joins and refreshes, each item's baselines and steps, place after place, are a run of the verdict machine |
| GitLabCalls.CallsAreStageRun | provider/gitlab/fastpoll.go:17-103 | Every run of the provider's sweeps and notification polls is such a sequence: of each poll the join and then the open-set refresh |
| GitLabCalls.ProviderSignalsAreSeparated | provider/gitlab/graphql.go:311-360 | So over every run of polls, between two signals about one actor the forge answered that the actor's verdict was not the one first reported |
| GitLabCalls.ProviderReportsPending | provider/gitlab/graphql.go:311-360 | And no change is lost to failed fetches: the first step that reads the notes reports it |
| GitLabProvider.Provider.RunMRBatches | provider/gitlab/graphql.go:201-238 | Whatever the batch size, the results are the per-item joins of the answered batches; degraded if and only if some batch failed |
| GitLabProvider.Provider.GraphqlJoin | provider/gitlab/graphql.go:443-522 | The output in place and order, the cache without archived items, the new baselines, and as verdict signals each step's emission after the other; the pass-through leaves all untouched and reports nothing |
| GitLabProvider.PollReportsVerdicts | provider/gitlab/graphql.go:487-522 | An event is among the verdict signals if and only if some event's step emits it from the baseline that the steps before left, and all of them are in the output |
| GitLabProvider.Provider.Reconcile | provider/gitlab/reconcile.go:146-184 | The joined sweep, the next cache and the next baselines; degraded if and only if some batch failed, and completeness from the enumeration alone |
| GitLabProvider.Provider.FastPoll | provider/gitlab/fastpoll.go:17-103 | It succeeds if and only if every todo's detail was fetched, and otherwise only evicts what the todos before found closed; then the joined todos with the refreshed snapshots behind them, the next cache and baselines, degraded if and only if the join or the refresh is |
| GitLabProvider.Provider.OpenSetRefresh | provider/gitlab/graphql.go:671-730 | It reads exactly the cached, parseable items that the poll did not cover, each once, evicts the archived ones and caches nothing; behind each answered item's snapshot come its step's verdict signals |
| GitLabProvider.RefreshReports | provider/gitlab/graphql.go:699-730 | Its output is exactly the snapshots of the answered items and the signals that their steps emit |
| GitLabCalls.RefreshKeepsGate | provider/gitlab/graphql.go:715-724 | A refreshed snapshot keeps the cached gate, state and draft flag |
| GitLabCalls.FailedIsCall | provider/gitlab/fastpoll.go:58-65 | A notification poll that ends at a todo is a poll of the run without events that evicts what the todos before it found closed |
| GitLab.ItemsAreListed | provider/gitlab/graphql.go:444-458 | The join's items are exactly the snapshots with a parseable id, each once, in order |
| NativeIDs.MergeRequestIDsParse | provider/gitlab/graphql.go:761-777 | For every path and number, path!number is an id that the join reads if and only if the path is no bare number; a path with a slash is none |
| NativeIDs.ParseableIsMergeRequestID | provider/gitlab/graphql.go:761-777 | And the join reads no other id |
| GitLabEffects.JoinAchieves | provider/gitlab/graphql.go:443-530 | Whatever else a poll holds and fails at, an open merge request that is no draft and whose batch of eight answers is emitted once and cached with the answer's approvals, decision, my review and pipeline markers; its gate is REST's where REST knew one, and else the one that a settled status names |
| GitLabEffects.JoinNamesGate | provider/gitlab/graphql.go:551-564 | Where REST knew no gate a settled status fills gate, detail and markers: ready for mergeable alone; the conflict marker is dropped when a rebase is due |
| GitLabEffects.JoinLeavesGateUnknown | provider/gitlab/graphql.go:566-592 | A transient status leaves the row's gate part, unless the cache knows an open merge request that is no draft as ready or blocked |
| GitLabEffects.MyEntryCounts | provider/gitlab/graphql.go:631-653 | My review state is what my first reviewer entry says |
| GitLabEffects.OwnMergeRequestShows | provider/gitlab/normalize.go:44-55 | After such a poll my own merge request, unchecked by REST, shows ready if and only if its status is mergeable, else blocked, never checking; changes_requested and running checks as the answer says |
| GitLabEffects.ReviewedMergeRequestShows | provider/gitlab/graphql.go:594-653 | After such a poll a merge request that I review shows review_submitted and is muted if and only if I approved it or my entry is not pending |
| GitLabEffects.NewApprovalIsReported | provider/gitlab/graphql.go:311-440 | An approval that appears between two reads is reported as one by its actor, dated and keyed by the actor's first system note that says so |
| GitLabEffects.NewRequestIsReported | provider/gitlab/graphql.go:311-440 | Likewise a request for changes, which outweighs an approval |
| GitLabEffects.VerdictIsReported | provider/gitlab/graphql.go:311-364 | A poll reports each verdict that the item's baseline did not hold, dated by the actor's first system note that says so |
| GitLabEffects.ClosedAndDraftsAreSilent | provider/gitlab/graphql.go:443-530 | The join reports nothing of a merge request that is closed or a draft |
| GitLabEffects.FailedJoinKeepsGate | provider/gitlab/graphql.go:566-592 | When every batch fails, a read without gate still shows the gate, detail and markers that the cache knows |
| GitLabEffects.EmptyJoinChangesNothing | provider/gitlab/graphql.go:465-467 | When no batch fails and yet no node comes back, sweep and baselines are left alone |
| GitLabEffects.ClosedTodoEvicts | provider/gitlab/fastpoll.go:66-72 | A merge request that the todos of a poll found merged or closed, and never open, is out of the cache after it |
| GitLabEffects.RefreshReads | provider/gitlab/graphql.go:671-700 | The open-set refresh reads exactly the cached merge requests that the poll did not emit, each once |
| GitLabEffects.TodoBrings | provider/gitlab/fastpoll.go:134-162 | Each todo brings its merge request's snapshot and the signal of its action, by its author, dated by it |
| GitLabSafety.SweptByJoin | provider/gitlab/graphql.go:505-522 | The swept set of the output is that of the REST sweep without archived items, pass-through included |
| GitLabSafety.FailureNeverReaps | provider/gitlab/graphql.go:443-522 | An item is removed only if the REST sweep missed it or the forge answered that its project is archived |
| GitLabSafety.BatchSizeIrrelevant | provider/gitlab/graphql.go:201-253 | Batching at any two sizes agrees on every merge request that both answered |
| GitLabSafety.GateSurvives | provider/gitlab/graphql.go:465-522 | For an open non-draft merge request with a known cached gate, the emitted gate is known if and only if the read knew one or the sweep did not pass through |
| GitLabSafety.GateStable | provider/gitlab/graphql.go:551-590 | Over any run, while a merge request stays cached, open and no draft, a known gate stays known unless a poll passes an unknown read of it through |
| GitLabSafety.SettledStays | provider/gitlab/graphql.go:566-592 | Over such a stretch a gate that was ready or blocked once is one of the two ever after |
| GitLabCalls.ProviderGateStable | provider/gitlab/graphql.go:551-590 | The same over every run of the provider's polls |
| GitLabCalls.PassThroughLosesGate | provider/gitlab/graphql.go:465-467 | A run of two sweeps: the first is joined and caches a known gate, the second gets a null node and no failed batch, and the gate is lost while the merge request stays cached |
| GitLabDegraded.DegradedFixedPoint | provider/gitlab/graphql.go:532-590 | A join without result rebuilds the payload of the last successful one if and only if REST raises no marker that the join takes down and either the gate was filled in or REST agrees about conflicts; on a draft, if and only if REST agrees about conflicts and the gate was not filled |
| GitLabDegraded.MarkerComesBack | provider/gitlab/graphql.go:539-542 | A list row that still lacks approval, joined with an approved node: the next degraded poll raises the marker that the join took down |
| GitLabDegraded.MarkersNeverCleared | provider/gitlab/graphql.go:532-545 | After any number of degraded polls a marker is up if and only if it was up before them or some read raised it |
| GitLabDegraded.ConflictAndRebase | provider/gitlab/graphql.go:594-630 | A joined merge request is marked both in conflict and due for a rebase if and only if a rebase is due, neither REST nor the join has a gate, and the cached one brings the conflict |
| EndToEnd.HubSweepShows | provider/github/reconcile.go:33-117 | In any run a persisted complete sweep decides every PR from its search hits, whatever its batches answered: one found and not archived is visible if and only if not shadowed by a closed or unreadable snapshot, always so when it was visible or removed; one not found stays only if visible, without role, and listed as open or not asked |
| EndToEnd.HubCycleShows | internal/engine/cycle.go:62-160 | The same for every cycle of the engine that writes such a sweep |
| PullToList.MyPullIsListed | internal/engine/cycle.go:118-272 | End to end: when a cycle of an engine run writes a GitHub sweep that found my PR, and its snapshot is new or the PR had been removed, the list over the new log holds the PR once, ready or blocked as the answered merge state says, with the answered approvals, changes_requested and auto-merge as GitHub says, and not muted |
| EndToEnd.LabSweepShows | provider/gitlab/reconcile.go:146-184 | The same for GitLab from its REST events, pass-through sweeps included |
| EndToEnd.LabCycleShows | internal/engine/cycle.go:62-160 | And for every cycle of the engine that writes such a sweep |
| EndToEnd.HubOutputIsProvider | provider/github/graphql.go:381-476 | What a GitHub sweep or notification poll hands to the engine meets the protocol's demand on polls: snapshots and signals under provider keys, never a removal |
| EndToEnd.LabOutputIsProvider | provider/gitlab/graphql.go:443-730 | And so does what GitLab's polls hand over, the snapshots and signals of the open-set refresh included, where their REST events meet it |
| EndToEnd.TodosAreProvider | provider/gitlab/fastpoll.go:58-76 | As those of a notification poll do |
| Resurrection.UnseenStaysRemoved | internal/engine/cycle.go:225-257 | In any run a removed item stays removed for as long as no written poll of its connection holds a snapshot of it |
| Resurrection.HubStaysHidden | provider/github/graphql.go:464-475 | On GitHub a removed PR stays hidden until REST sees it again, whatever the joins answer |
| Resurrection.CachedStays | provider/gitlab/fastpoll.go:107-116 | On GitLab a cached merge request stays cached over any run until a todo finds it closed or its project is archived; no sweep evicts it |
| Resurrection.RefreshDecides | provider/gitlab/graphql.go:671-730 | A removed merge request that REST does not see comes back with a notification poll if and only if the refresh answers for it and what it makes of the cached facts is new to the log; it is asked about if and only if still cached, parseable and found closed by no todo |
| Resurrection.LabStaysHidden | provider/gitlab/graphql.go:671-730 | Over any run it stays hidden until REST sees it or a refresh does that |
| ResurrectionRun.MergedReturns | provider/gitlab/graphql.go:671-730 | A run in which a merge request is found, missed and removed, and then brought back by a poll without todos |
| Retry.DelayBounds | frontend/src/lib/retry.ts:31-35 | Every delay lies between one second and one minute, honours the hint up to a minute, and exceeds half a minute only for a hint |
| Retry.DelayGrows | frontend/src/lib/retry.ts:31-35 | Without a hint delays never shrink as attempts grow, and from the fifth on they are the cap |
| Retry.DelayValues | frontend/src/lib/retry.ts:31-35 | One second, doubled with each attempt, half a minute from the sixth on; a hint of up to a minute is a floor |
| Dashboard.Dashboard.HydrateSettles | frontend/src/lib/dashboard.svelte.ts:122-154 | What a hydrate does after its await, on success and on failure, with the guards of its four generations |
| Dashboard.Dashboard.RefreshSettles | frontend/src/lib/dashboard.svelte.ts:156-200 | What the three refreshes do after their await |
| Dashboard.Dashboard.ScheduleHydrateRetry | frontend/src/lib/dashboard.svelte.ts:241-272 | Arms the retry, pushes a pending one back, or leaves it; the browser's timers follow |
| DashboardRuns.SettleEffects | frontend/src/lib/dashboard.svelte.ts:116-239 | Which slices a settlement writes, when it raises and clears the stale flag, and when it makes the dashboard ready; it draws no generation |
| DashboardRuns.RunInv | frontend/src/lib/dashboard.svelte.ts:70-77 | In every interleaving a request is newest by its generation if and only if it was started last, and each slice shows the response it is tagged with |
| DashboardLaws.HeldNeverDecreases | frontend/src/lib/dashboard.svelte.ts:116-200 | Under every interleaving the generation of the response that a slice holds never decreases |
| DashboardLaws.NewestWins | frontend/src/lib/dashboard.svelte.ts:116-200 | If the newest-started request that carries a slice succeeded, the slice is its response, whatever settled before or after |
| DashboardLaws.OnlyNewestWrites | frontend/src/lib/dashboard.svelte.ts:128-146 | A slice changes only when its newest request succeeds |
| DashboardLaws.OlderSuccessKeepsStale | frontend/src/lib/dashboard.svelte.ts:129-139 | A stale flag that is up after a request failed goes down only by the success of an attention request started later |
| DashboardLaws.DefacesExactly | frontend/src/lib/dashboard.svelte.ts:148-150 | A failing request changes the stale flag or the load error over a newer request's list if and only if it is the newest hydrate and, on a loaded dashboard, the flag is not up, or, before the first load, that error is not shown; the list itself stays |
| DashboardLaws.OlderSuccessSpares | frontend/src/lib/dashboard.svelte.ts:122-147 | An older success over a newer request's list changes neither list nor stale flag, and a load error that it clears came from an earlier hydrate |
| DashboardLaws.OlderFailureDefaces | docs/Semantic_Invariants.md:307-311 | A run in which an older failure overwrites a newer snapshot's state |
| DashboardLaws.ColdFailureDefaces | frontend/src/lib/dashboard.svelte.ts:229-239 | A run before the first load: a refresh brings a list, then the older hydrate fails and a load error stands in the list's place |
| DashboardStale.StaleExactly | frontend/src/lib/dashboard.svelte.ts:116-239 | Once the newest attention request has settled: if it failed, stale if and only if the dashboard was ready then; if it succeeded, stale if and only if the newest hydrate failed after it on a ready dashboard |
| DashboardStale.HonestExactly | frontend/src/App.svelte:206-230 | A list on the page is the newest request's or marked stale, unless that request failed before the first load finished and the load has finished since |
| DashboardStale.EarlyFailureForgotten | frontend/src/lib/dashboard.svelte.ts:167-174 | A run that ends loaded, with a list it never received, not stale, without error and without retry |
| DashboardRetry.AtMostOneRetry | frontend/src/lib/dashboard.svelte.ts:241-280 | At every point of every run at most one retry timer is armed, and it is the one the dashboard knows, due at its deadline |
| DashboardRetry.DeadlineIsMax | frontend/src/lib/dashboard.svelte.ts:250-262 | Until a hydrate starts or the retry fires, a pending retry is due at the maximum of failure time plus delay over all retriable failures since it was armed |
| DashboardRetry.WishBounds | frontend/src/lib/dashboard.svelte.ts:250-251 | Each requested retry lies one second to one minute after its failure and honours the hint up to a minute |
| DashboardRetry.FailureArms | frontend/src/lib/retry.ts:15-29 | When no retry is pending, a failed hydrate arms one if and only if the network failed or the status is 429, 500, 502, 503 or 504, due after the attempt's delay or the positive hint |
| DashboardLoads.LoadingExactly | frontend/src/lib/dashboard.svelte.ts:116-154 | In every interleaving the dashboard is loading until the latest hydrate settles for the first time, and never again |
| DashboardLoads.AttemptCounts | frontend/src/lib/dashboard.svelte.ts:229-280 | In every interleaving the attempt count is the number of retries armed since the latest hydrate last succeeded |
| DashboardLoads.RetrySchedule | frontend/src/lib/dashboard.svelte.ts:241-272 | When no retry is pending and the latest hydrate fails retriably, the retry is due after the delay of as many attempts as retries were armed since a load succeeded: one second right after a success without hint |

## Left out

- HTTP, pagination, JSON and YAML decoding, rate headers: each call is an arbitrary answer or failure.
- SQLite, its pools, locks and migrations: the table is a sequence with unique keys, each write atomic. Row deletion and the reuse of row ids are not modelled.
- Object types other than `merge_request`: the diff indexes latest facts by native id alone, and both providers emit only this type.
- SHA-256 and the public item id: facts hashes and ids are taken as injective; string order of ids is that of numbers.
- Time parsing and formatting, and Go's saturation of durations.
- The wording of log lines, sync-log causes and notices.
- The sole-approver probe and its cache: only whether a probe said yes, no or failed. The search queries, GitLab's pages and its sole-approver projects are one list of REST events.
- The order in which leftovers are handed to ResolveOpen, and that of Go's map iteration: arbitrary.
- Integer overflow in parsing PR and merge-request numbers, and numbers with leading zeros or a sign, which no forge writes: the program names a verdict's PR by the parsed number, the model by the id as it stands.
- Interleaving inside a cycle: engine runs take the cycles of different connections one at a time, while the protocol's steps, crashes between them included, interleave freely.
- GitLab's list rows: a REST snapshot is any payload whose gate is that of its merge status.
- GitLab's todos of other targets than merge requests, which FastPoll skips, and the watermark it returns.
- Pagination of GitLab's notes: one page, as the program reads.
- FoldReaders.SinceIsExact: assumes that no snapshot and no mention has the zero time, because the program takes that for "no onset".
- FoldMethods.Fold: assumes distinct positive row ids and injective item ids, which the table and the digest provide.
- GitLabSafety.GateStable: says nothing about a stretch in which a todo reports the merge request closed, which evicts it.
- The dashboard's SSE stream, banner, flags and update chip beyond the slice that carries it; disposal and the test reset.
- The API handlers, the SSE hub, formatting, theme, buckets, the Jira client, the update check, configuration and the demo forge: plumbing or easy members.
