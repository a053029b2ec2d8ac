# Verified model of the market-data platform's protocols

A Dafny 4.11 model of the parts of the platform where state, ordering or arithmetic is hard to
get right, with proofs of what those parts keep in every run. `dafny verify dfyconfig.toml`
checks the whole project.

Code that updates state in place is modelled in that form: a class with the source's fields, or
a method with the source's loops, proved equal to a specification function. What the code
promises is then proved about those functions, over all inputs or over all runs. Concurrent code
is a state machine whose steps are what runs between two suspension points (an `await`, a lock,
a queue operation), and its theorems hold for every interleaving.

| files | what they model |
|---|---|
| `Symbols`, `Registry`, `ConnectionManager` | the WebSocket connection manager: connection, subscription and reverse maps, the cap of 500, fan-out with clean-up |
| `InterleavedBroadcast` | a broadcast whose sends suspend, interleaved with all other operations |
| `EngineMirror` | the subscribe and unsubscribe branches of the WebSocket handlers, interleaved, and the streaming engine they mirror into, which also publishes ticks |
| `Windows`, `Panama`, `Rounding` | continuous futures: contract windows, backward ratio adjustment, rounding, sorting |
| `MaxPain`, `SortedKeys` | max pain of an option chain |
| `UniverseStore` | the F&O universe loader's two transactions and the join that serves constituents |
| `UniverseHistory` | the paged history over runs of the loader, read while universes are announced |
| `PolicyUpsert`, `Bhavcopy`, `BhavcopyLoad` | upserts with overwritten, kept and coalesced columns; both bhavcopy parsers; the date split and the day-by-day load |
| `ExpiryDates` | the expiry cell in its ISO and its day-month-year spelling |
| `FetchHook` | backfill tasks that replace and restore one engine method under a semaphore |
| `DeployQueue` | the webhook's bounded deploy queue and its worker |
| `BackfillJobs` | the registry of backfill jobs |
| `StripCredentials` | removal of credential-named fields from nested values |
| `Paging` | pages of the universe history; candle ranges with truncation |
| `Collections` | finite sets, sequences and relations, with the two ways of counting a relation |

## Where the code and its documentation disagree

The model follows the code. The members named say when the documentation is right and show an
input for which it is not.

- `src/engines/streaming_engine.py:322-328` says the engine is told when a consumer disconnects.
  No disconnect path tells it, and `publish_tick` registers the symbol of every tick besides, so
  a symbol can stay registered with nobody subscribed (`EngineMirror.LeavesNothingBehindIff`,
  `EngineMirror.DisconnectLeavesSymbolBehind`, `EngineMirror.TickLeavesSymbolBehind`).
- `scripts/build_continuous_futures.py:17-18` says that returns are preserved. Inside a segment
  they are; but the last contract's candles after its own roll date are a second segment, scaled
  to the first although nothing rolls, so what it earned between the two is lost
  (`Panama.ContractReturnKeptIff`, `Panama.LoneContractLosesReturn`).
- `scripts/build_continuous_futures.py:20` recovers a price by multiplying with the factor; the
  factor was multiplied in, so it must be divided out (`Panama.RecoveryLaw`,
  `Panama.MultiplyingDoesNotRecover`).
- `scripts/build_continuous_futures.py:22` rolls 5 trading days before expiry; the code takes 5
  calendar days. A contract's roll date is on a row only if the contract trades on that very
  day, so for a Thursday expiry it is on none (`Panama.RollShownIff`,
  `Panama.WeekendRollIsNeverShown`).
- `scripts/backfill_india_5y.py:416` says the method is restored regardless of outcome. With
  overlapping tasks it is not: it is certain exactly at a concurrency of at most one
  (`FetchHook.AlwaysRestoredIff`, `FetchHook.RestoredIff`, `FetchHook.LeftoversGrow`). The wrapper
  also pauses after the inner call, not before it as the function's description has it
  (`FetchHook.CallThroughChain`).
- `scripts/webhook_server.py:21` says that a depth of one skips a push while a deploy is running,
  and the 429 answer says that one is (`DeployQueue.RefusedIffFull`, `DeployQueue.BusyIsNotSkipped`,
  `DeployQueue.RefusedWhileIdle`).
- `src/api/india.py:752` and `src/api/india.py:806` say that `truncated` is true when the limit
  is reached; it is true when the limit is exceeded (`Paging.QueryCandles`,
  `Paging.ReachedIsNotTruncated`).
- The universe history is ordered by a version that a returning universe gets anew, so a reader
  who turns pages meanwhile never sees its row (`UniverseHistory.NothingSkippedIff`,
  `UniverseHistory.ReturningUniverseIsSkipped`).
- A bhavcopy re-run is safe, but the conflict key leaves out expiry, strike and side, so one row
  stands for all contracts of a symbol on a day and mixes the first one's identity with the last
  one's prices (`BhavcopyLoad.StoredContractIsGenuineIff`, `BhavcopyLoad.ContractsCollide`,
  `BhavcopyLoad.TwoExpiriesOneRow`).
- A job's completion time does not always mean a finished job: cancelling a running task sets it
  and leaves the status `RUNNING` (`BackfillJobs.CompletionMeansFinishedIff`,
  `BackfillJobs.CancelledJobLooksRunning`).

## Model

| member | source | states |
|---|---|---|
| Symbols.NormaliseIdempotent | src/api/streaming.py:172 | a stored symbol is found again under its own normal form |
| Symbols.NormalFormsAgreeIff | src/api/streaming.py:172 | two names have one normal form exactly when they differ in nothing but letter case and the white space around them |
| Symbols.NormalFormIs | src/api/streaming.py:172 | a normal form is a spelling of the name, without small letters and without white space around it |
| Symbols.EmptyNormalFormIff | src/api/streaming.py:172-174 | a name is skipped exactly when it is all white space |
| Connections.ConnectionManager.Connect | src/api/streaming.py:114-125 | a fresh connection is added to the connection and forward maps with no symbols, and both maps still agree |
| Connections.ConnectionManager.Disconnect | src/api/streaming.py:127-140 | exactly this connection's entries leave all three maps; no empty bucket remains |
| Connections.ConnectionManager.TotalSubscriptions | src/api/streaming.py:170 | the sum of the set sizes is the number of (connection, symbol) pairs |
| Connections.ConnectionManager.Subscribe | src/api/streaming.py:152-207 | the new maps are those of admitting the longest prefix of wanted symbols that fits under the cap; the accepted and rejected lists are the request split by what is then held, in request order |
| Connections.ConnectionManager.SubscribeEach | src/api/streaming.py:172-187 | the per-symbol loop computes that prefix although it decides one symbol at a time |
| Connections.ConnectionManager.Unsubscribe | src/api/streaming.py:209-229 | exactly the requested symbols that were held are removed, each reported once |
| Connections.ConnectionManager.Deliver | src/api/streaming.py:243-266 | every subscriber is either delivered to or stale, and stale is exactly no socket or failed send |
| Connections.ConnectionManager.BroadcastTick | src/api/streaming.py:235-272 | the state afterwards is the state before without the stale connections; the count is the reachable subscribers |
| Registry.SubscribeGain | src/api/streaming.py:169-187 | one subscribe call adds exactly min(free slots, distinct new non-empty symbols) pairs |
| Registry.SubscribeStep | src/api/streaming.py:172-187 | deciding symbol by symbol with a running total admits the same symbols as taking the prefix at once |
| Registry.AnswerStep | src/api/streaming.py:172-187 | a symbol is answered accepted exactly when it is held or admitted, also when it is repeated in the request |
| Registry.LeftOutMeansFull | src/api/streaming.py:181-183 | a symbol is rejected only when the cap is reached |
| Registry.ApplyKeepsValid | src/api/streaming.py:114-272 | every operation keeps the agreement of both maps, the cap and normalised symbols |
| Registry.RunsStayValid | src/api/streaming.py:104-272 | that holds after any sequence of operations |
| Registry.CapAndAgreement | src/api/streaming.py:169-187 | in every reachable state both maps hold the same pairs, no bucket is empty, the two totals are equal and at most 500, and the unique-symbol metric is bounded by them |
| Registry.WithoutRemovesExactly | src/api/streaming.py:134-140 | dropping connections removes their pairs and nobody else's |
| Registry.BroadcastCleansUp | src/api/streaming.py:252-272 | after a broadcast that nothing interrupts no unreachable subscriber is in any map; every other connection keeps all it had |
| Registry.OnlyOwnEntriesChange | src/api/streaming.py:114-229 | an operation of one client leaves every other client's entries alone, and a connection keeps the socket it came with |
| Registry.AnySpellingSubscribes | src/api/streaming.py:172-187 | after a request of which nothing was rejected the connection gets the ticks of a symbol exactly when it did before or the request names the symbol, in whatever spelling either uses |
| Registry.AnySpellingIsDelivered | src/api/streaming.py:243-266 | a connection with a working socket that subscribed in one spelling is delivered to by a broadcast in any other |
| Registry.AnySpellingUnsubscribes | src/api/streaming.py:209-224 | an unsubscribe request takes away exactly what it names, in any spelling |
| InterleavedBroadcast.InterleavedCleanUp | src/api/streaming.py:244-272 | with other operations between all sends and clean-ups: both maps agree and the cap holds, every subscriber was delivered to or stale, and a stale one is in no map unless it asked for something after its clean-up |
| InterleavedBroadcast.StaleIffSendFailed | src/api/streaming.py:252-266 | a subscriber is found stale exactly when its send found no socket or raised; each is sent to once |
| InterleavedBroadcast.ReturnsIff | src/api/streaming.py:184-185 | a cleaned-up connection that subscribes is back in the forward map, without a socket, exactly when it names something and a slot is free |
| EngineMirror.StepKeepsCovered | src/api/streaming.py:563-594 | every handler step keeps: a subscribed symbol is in the engine or in its handler's pending accepted list |
| EngineMirror.SubscribedSymbolsAreCovered | src/api/streaming.py:563-594 | that holds in every interleaving of handlers, heartbeats, broadcasts and published ticks; of a handler that failed, only the list it never passed on counts |
| EngineMirror.QuietEngineHasAllSubscribed | src/api/streaming.py:563-594 | with no handler in the middle of a request every subscribed symbol is registered in the engine |
| EngineMirror.LeavesNothingBehindIff | src/engines/streaming_engine.py:315-328 | exactly which steps leave a symbol registered, or about to be, that nobody subscribes to: disconnecting the last subscriber of a registered symbol, disconnecting a handler whose accepted list is still to be passed on, failing while an unregistration is owed, publishing a tick nobody subscribes to |
| EngineMirror.HarmlessRunsStayTidy | src/api/streaming.py:563-616 | over any run of the other steps every registered symbol has a subscriber or is about to be unregistered |
| EngineMirror.HarmlessRunsMirrorExactly | src/api/streaming.py:563-594 | after such a run the registered symbols are exactly the subscribed ones |
| EngineMirror.DisconnectLeavesSymbolBehind | src/engines/streaming_engine.py:322-328 | for every client and symbol there is a run in which the heartbeat drops the only subscriber and the symbol stays registered |
| EngineMirror.TickLeavesSymbolBehind | src/engines/streaming_engine.py:180-182 | one published tick registers its symbol with no client at all |
| Windows.BuildWindows | scripts/build_continuous_futures.py:147-158 | the windows that the roll dates define, empty ones left out |
| Windows.CutWindows | scripts/build_continuous_futures.py:147-158 | the loop with the carried roll date cuts exactly those windows |
| Windows.BuildSegments | scripts/build_continuous_futures.py:137-169 | all windows, then what the last contract trades after its own roll date |
| Windows.OneContractInForce | scripts/build_continuous_futures.py:143-144 | on every day exactly one contract is in force: the smallest roll date not before the day, or the last contract |
| Windows.WindowsFollowSelector | scripts/build_continuous_futures.py:148-158 | a candle is in the windows exactly when its contract is in force on its day and has not rolled |
| Windows.TailIsSelector | scripts/build_continuous_futures.py:160-166 | a candle is in the tail exactly when the last contract is in force and has rolled |
| Windows.SeriesFollowsSelector | scripts/build_continuous_futures.py:143-166 | windowing refines the selector: a candle is used exactly when its contract is in force on its day |
| Windows.SeriesAscends | scripts/build_continuous_futures.py:143-166 | with date-ordered contracts the concatenated segments are strictly ascending in date |
| Windows.SegmentsOfOneContract | scripts/build_continuous_futures.py:143-166 | two candles of one contract are in one segment, unless its roll date is between them: then they are in the last two |
| Panama.FirstPass | scripts/build_continuous_futures.py:175-193 | the first accumulation pass yields for each segment the product of all later boundary ratios |
| Panama.SecondPass | scripts/build_continuous_futures.py:203-215 | the recomputing pass yields the identical segment list |
| Panama.EmitRows | scripts/build_continuous_futures.py:217-232 | one adjusted row per candle, in order |
| Panama.BuildContinuousSeries | scripts/build_continuous_futures.py:126-235 | the whole function computes the specified series; both passes agree |
| Panama.SortChangesNothing | scripts/build_continuous_futures.py:234 | sorting rows that ascend changes nothing |
| Panama.SeriesIsStrictlyAscending | alembic/versions/20260919_000000_add_continuous_futures_table.py:54-58 | output dates are strictly ascending, so the final sort changes nothing and the unique key is never hit twice |
| Panama.SeriesRows | scripts/build_continuous_futures.py:217-232 | a row is in the series exactly when it is the adjusted candle, by its segment's factor, of the contract in force on its day |
| Panama.SeriesIsComplete | scripts/build_continuous_futures.py:217-232 | every candle of a contract in force has its row |
| Panama.RowsShowTheirCandles | scripts/build_continuous_futures.py:220-232 | in every row each of the four prices over the row's factor gives the day's candle's price of the same name back, within the rounding of the two columns; volume and both open interest columns are the candle's, zero open interest missing |
| Panama.RollsShowNoJump | scripts/build_continuous_futures.py:209-225 | neighbouring rows of different contracts, or on either side of the last contract's roll date, show the same close if both candles' closes are positive |
| Panama.FactorChangesOnlyAtRolls | scripts/build_continuous_futures.py:203-219 | rows of one contract on one side of its roll date carry the same factor |
| Panama.LatestRowIsUnadjusted | scripts/build_continuous_futures.py:203-231 | the latest row has factor 1 and the close that was traded |
| Panama.RollsOnlyForward | scripts/build_continuous_futures.py:217-232 | the series only moves on to later contracts, and a row with a roll date is the last of its contract unless no later contract exists |
| Panama.RollShownIff | alembic/versions/20260919_000000_add_continuous_futures_table.py:39-40 | a row carries a contract's roll date exactly when the contract has a candle on that calendar day, and it is that day's row |
| Panama.WeekendRollIsNeverShown | scripts/build_continuous_futures.py:121-123 | for a Thursday or Friday expiry of a contract traded on weekdays no row does |
| Panama.FactorPositive | scripts/build_continuous_futures.py:203-215 | every factor is positive, whatever the closes |
| Panama.BoundaryContinuityIff | scripts/build_continuous_futures.py:209-213 | the adjusted closes on both sides of a roll agree exactly when both are positive or they were equal already, and then after rounding too |
| Panama.FactorTelescopes | scripts/build_continuous_futures.py:203-215 | for positive closes the factor is the product of later first closes over the product of last closes |
| Panama.BoundariesShowNoReturn | scripts/build_continuous_futures.py:171-173 | across any number of segment boundaries the adjusted series grows exactly by what the segments between them earned |
| Panama.ContractReturnKeptIff | scripts/build_continuous_futures.py:160-166 | between consecutive candles of one contract the adjusted return is the contract's exactly when its roll date is not between them, or it earned nothing, or a close is not positive |
| Panama.LoneContractLosesReturn | scripts/build_continuous_futures.py:160-166 | for a single contract traded on its roll date and the day after, at any positive prices, the series shows the same close twice |
| Panama.RatiosPreserved | scripts/build_continuous_futures.py:16-18 | inside a segment price ratios are those of the contract |
| Panama.RecoveryLaw | scripts/build_continuous_futures.py:18-20 | adjusted price divided by factor is the original price; the documented multiplication is right only for price 0 or factor 1 |
| Panama.MultiplyingDoesNotRecover | scripts/build_continuous_futures.py:20 | a contract for which it is wrong: 100 is adjusted to 110, multiplied back to 121, divided back to 100 |
| Panama.RecoveryError | scripts/build_continuous_futures.py:222-231 | from the stored price and the stored factor recovery is off by at most half a unit of the sixth decimal plus the price times half a unit of the eighth, over the stored factor |
| Panama.RowKeepsPriceOrder | alembic/versions/20260919_000000_add_continuous_futures_table.py:78-83 | low, open, close and high stay in order through scaling and rounding |
| Panama.StoredFactorPositiveIff | alembic/versions/20260919_000000_add_continuous_futures_table.py:89-93 | the stored factor passes the table's check exactly when the true factor exceeds half a unit of the eighth decimal |
| Rounding.RoundMonotone | scripts/build_continuous_futures.py:222-225 | rounding keeps order |
| Rounding.RoundError | scripts/build_continuous_futures.py:222-225 | rounding moves a price by at most half a unit of the last decimal |
| Rounding.NearestIs | scripts/build_continuous_futures.py:222-231 | rounding gives the nearest value, of two equally near ones the even one |
| Rounding.NearestAwayIs | alembic/versions/20260915_000000_v2_production_schema.py:397 | a NUMERIC column stores the nearest value, of two equally near ones the one farther from 0 |
| Rounding.StoredPositiveIff | alembic/versions/20260915_000000_v2_production_schema.py:397 | a positive value is stored as a positive one exactly from half a unit of the column's last decimal on |
| MaxPain.GroupByStrike | scripts/collect_options_chain_snapshots.py:126-135 | the per-strike table gives, at every price, the same loss as the sum over contracts |
| MaxPain.TotalLoss | scripts/collect_options_chain_snapshots.py:145-149 | the inner loop computes the table's loss at the candidate |
| MaxPain.CheapestCandidate | scripts/collect_options_chain_snapshots.py:140-152 | the scan finds the smallest candidate of least loss |
| MaxPain.ComputeMaxPain | scripts/collect_options_chain_snapshots.py:122-154 | the result is the smallest of the strikes in the cells, an empty one counting as 0, that has the least total writer loss, summed over the strike and open interest cells; None exactly for no contracts |
| MaxPain.LossOnLine | scripts/collect_options_chain_snapshots.py:146-149 | between neighbouring strikes the loss is a straight line |
| MaxPain.LossBeyond | scripts/collect_options_chain_snapshots.py:146-149 | outside the strikes the loss grows with the open interest of one side |
| MaxPain.OptimalOverAllPricesIff | scripts/collect_options_chain_snapshots.py:144-154 | the listed strike found is optimal over every real settlement price exactly when neither side's total open interest is negative |
| MaxPain.MaxPainIsOptimal | scripts/collect_options_chain_snapshots.py:122-154 | with non-negative open interest the result minimises the loss over every settlement price |
| MaxPain.PermutationInvariant | scripts/collect_options_chain_snapshots.py:126-135 | reordering contracts does not change the result |
| MaxPain.SplittingInvariant | scripts/collect_options_chain_snapshots.py:126-135 | splitting one contract's open interest over two rows does not change the result |
| UniverseLoader.UniverseStore.CurrentMax | scripts/load_fno_universe.py:214-216 | the greatest version, or 0 |
| UniverseLoader.UniverseStore.UpsertSnapshot | scripts/load_fno_universe.py:133-145 | insert or reactivate by checksum; an id is always returned |
| UniverseLoader.UniverseStore.FirstTransaction | scripts/load_fno_universe.py:212-245 | supersede all, activate this universe with the next version; the branch for a missing id cannot be taken |
| UniverseLoader.UniverseStore.UpsertMembership | scripts/load_fno_universe.py:147-159 | the instrument's single membership row points to the given snapshot, in the insert and the conflict branch alike |
| UniverseLoader.UniverseStore.SecondTransaction | scripts/load_fno_universe.py:248-263 | every underlying's membership points to the snapshot; all others are untouched |
| UniverseLoader.UniverseStore.LoadConstituents | src/api/instruments.py:503-551 | the symbols of the join at a version, without synthetic rows |
| UniverseTables.AnnounceKeepsSound | scripts/load_fno_universe.py:212-232 | the first transaction keeps ids and versions pairwise distinct and leaves exactly one active snapshot, of strictly greatest version |
| UniverseTables.SnapshotTableSound | scripts/load_fno_universe.py:212-245 | that holds over every history of runs, crashes and overlaps, including returns to an earlier universe |
| UniverseTables.EffectiveSinceFirstDay | scripts/load_fno_universe.py:133-145 | one snapshot per universe ever announced, effective since its first announcement however often it returns |
| UniverseTables.IdsAndVersionsAreRanks | scripts/load_fno_universe.py:133-145 | a snapshot's id is the rank of its universe's first announcement among all announcements, its version the rank of the latest |
| UniverseTables.MembershipFollowsOwner | scripts/load_fno_universe.py:248-263 | a membership row always belongs to the universe of the last membership transaction that contained it |
| UniverseTables.SyntheticIdIff | src/api/instruments.py:523 | an instrument is filtered out exactly when its underlying's name has `TEST` in it |
| UniverseTables.ServedAreOwned | src/api/instruments.py:503-525 | the join at a snapshot's version returns exactly the underlyings without `TEST` in their name that the snapshot's universe owns |
| UniverseTables.ActiveServesAllIff | src/api/instruments.py:503-525 | the active snapshot serves a subset of its universe, and all of it but names with `TEST` exactly when each member's last membership transaction was its own |
| UniverseTables.UndisturbedRunServesAll | scripts/load_fno_universe.py:206-263 | after any history one undisturbed run serves exactly its underlyings without `TEST` in their name; in particular a re-run after a crash |
| UniverseTables.CrashedRunServesRemainder | scripts/load_fno_universe.py:212-249 | a crash between the transactions serves exactly the members the universe already owned |
| UniverseTables.OverlappingRunsLoseShared | scripts/load_fno_universe.py:212-263 | when two runs overlap and the older populates last, the active snapshot loses what both share |
| UniverseHistory.RecencyIs | scripts/load_fno_universe.py:141-143 | in every history the snapshots are those of the universes announced, and their versions order them by their latest announcement |
| UniverseHistory.HistoryOfRun | src/api/instruments.py:615-643 | what the unfiltered and the status-filtered history list in every reachable state |
| UniverseHistory.BeforeMore | scripts/load_fno_universe.py:141-143 | what is listed before a universe after more transactions: what was announced since it was, or all announced joined to what was before |
| UniverseHistory.StillUnreadIff | scripts/load_fno_universe.py:141-143 | a universe from an offset on is found from there on again exactly when it was not announced again, or more than that many were since |
| UniverseHistory.SkippedUnless | src/api/instruments.py:628-643 | the same in pages, for any transactions between two page reads, unfiltered and for SUPERSEDED |
| UniverseHistory.NothingSkippedIff | src/api/instruments.py:628-643 | one announcement between page reads skips nothing unread exactly when the universe is new or its row was read |
| UniverseHistory.ReturningUniverseIsSkipped | src/api/instruments.py:628-643 | a reachable history in which a returning universe's unread row is on no later page any more |
| PolicyUpsert.LoadClosedForm | scripts/seed_fo_universe.py:276-298 | a load leaves per key: the last row's overwritten columns, the stored or first row's kept columns, the last non-NULL coalesced values |
| PolicyUpsert.LoadAppend | scripts/load_fo_bhavcopy_5y.py:556-561 | batch boundaries do not matter |
| PolicyUpsert.ReplayChangesNothingIff | scripts/load_fo_bhavcopy_5y.py:431-443 | rows change nothing exactly when the table already holds, per key, the last row's overwritten and all non-NULL coalesced values |
| PolicyUpsert.ReplayOfCompletePart | scripts/load_fo_bhavcopy_5y.py:59-60 | re-running any part that has all rows of the keys it touches leaves the table unchanged, for the three kinds of columns together |
| PolicyUpsert.LoadIdempotent | scripts/seed_fo_universe.py:256-298 | loading a list twice equals loading it once, from any starting table |
| PolicyUpsert.FilledStaysFilled | scripts/seed_fo_universe.py:278-296 | a coalesced column once filled stays filled |
| PolicyUpsert.StoredRowIsGenuineIff | scripts/load_fo_bhavcopy_5y.py:431-443 | from any table, the stored row is the last loaded one exactly when the kept columns agree and its coalesced values cover the earlier ones |
| PolicyUpsert.UpsertTable.UpsertBatch | scripts/load_fo_bhavcopy_5y.py:476-480 | row-by-row statements are the specified load |
| PolicyUpsert.UpsertTable.UpsertInBatches | scripts/load_fo_bhavcopy_5y.py:556-561 | slicing into batches loads every row once, in order |
| TradingDates.TradingDates | scripts/load_fo_bhavcopy_5y.py:152-159 | the loop lists the weekdays of the range |
| TradingDates.WeekdaysAre | scripts/load_fo_bhavcopy_5y.py:152-159 | exactly the days of the range that are Monday to Friday, ascending |
| TradingDates.WeekdayIsIso | scripts/load_fo_bhavcopy_5y.py:152-159 | the weekday is that of the ISO calendar, and the new format starts on 1 January 2024 |
| TradingDates.SplitDates | scripts/load_fo_bhavcopy_5y.py:502-507 | legacy days followed by new-format days are exactly the weekdays of the whole range, on the right side of the boundary |
| BhavcopyParsers.ParseNewRow | scripts/load_fo_bhavcopy_5y.py:246-302 | the branches compute the meaning of a row under the new column names; the four members after `ParseLegacyRows` say what that is |
| BhavcopyParsers.ParseNewRows | scripts/load_fo_bhavcopy_5y.py:237-303 | futures and options of the file, in file order |
| BhavcopyParsers.ParseLegacyRow | scripts/load_fo_bhavcopy_5y.py:315-372 | the branches compute the same meaning under the legacy names, with turnover in lakhs |
| BhavcopyParsers.ParseLegacyRows | scripts/load_fo_bhavcopy_5y.py:306-373 | futures and options of the file, in file order |
| BhavcopyParsers.NewFutureParses | scripts/load_fo_bhavcopy_5y.py:246-289 | a row of a 2024 file whose cells hold a future's fields parses to exactly that future, whatever the settlement price, in any spelling of its names |
| BhavcopyParsers.NewOptionParses | scripts/load_fo_bhavcopy_5y.py:246-302 | a row of a 2024 file whose cells hold an option's fields parses to exactly that option, strike and side included |
| BhavcopyParsers.LegacyFutureParses | scripts/load_fo_bhavcopy_5y.py:315-360 | the same for a future of an older file, with the expiry in the legacy spelling and the turnover in lakhs |
| BhavcopyParsers.LegacyOptionParses | scripts/load_fo_bhavcopy_5y.py:315-372 | the same for an option of an older file |
| BhavcopyParsers.NewRowComesFrom | scripts/load_fo_bhavcopy_5y.py:246-302 | nothing is parsed from a 2024 row that does not say kind, symbol and expiry, and for an option strike and side |
| BhavcopyParsers.LegacyRowComesFrom | scripts/load_fo_bhavcopy_5y.py:315-372 | the same for a row of an older file |
| ExpiryDates.IsoSpellingParses | scripts/load_fo_bhavcopy_5y.py:162-170 | the new format's spelling of any date parses to that day, and to none when there is no such day |
| ExpiryDates.LegacySpellingParses | scripts/load_fo_bhavcopy_5y.py:171-174 | so does the legacy spelling, with the month as `Jan`, `JAN`, `jan` or in any other capitalisation |
| ExpiryDates.SpellingsAgree | scripts/load_fo_bhavcopy_5y.py:162-174 | both spellings parse to the same day or both to none |
| ExpiryDates.ShortSpellingParses | scripts/load_fo_bhavcopy_5y.py:171-174 | the legacy spelling with a one-digit day does too |
| ExpiryDates.BasicSpellingParses | scripts/load_fo_bhavcopy_5y.py:167-168 | a date without dashes parses to its day |
| ExpiryDates.WeekSpellingParses | scripts/load_fo_bhavcopy_5y.py:167-168 | an ISO week date parses to its day |
| ExpiryDates.BasicWeekSpellingParses | scripts/load_fo_bhavcopy_5y.py:167-168 | and so does one without dashes |
| ExpiryDates.BareWeekSpellingParses | scripts/load_fo_bhavcopy_5y.py:167-168 | an ISO week without a day is its Monday |
| ExpiryDates.TimeIsIgnored | scripts/load_fo_bhavcopy_5y.py:164-168 | what follows an ISO date in the cell is not looked at |
| ExpiryDates.PaddingIsIgnored | scripts/load_fo_bhavcopy_5y.py:164 | nor is white space around the cell |
| ExpiryDates.NextDay | scripts/load_fo_bhavcopy_5y.py:167-168 | the calendar has no gap: the day after a date has the next ordinal, across months, leap days and years |
| ExpiryDates.WeekDaysRun | scripts/load_fo_bhavcopy_5y.py:167-168 | ISO week dates run on without gap across weeks and years |
| BhavcopyParsers.PublishedRowsCorrespond | scripts/load_fo_bhavcopy_5y.py:237-373 | rows of one trade with the expiry spelled as either format spells it and the turnover in its unit report the same trade |
| BhavcopyParsers.ParsersAgree | scripts/load_fo_bhavcopy_5y.py:237-373 | files whose rows report the same trades, however they spell symbol, side and expiry, parse to equal lists in both formats |
| BhavcopyParsers.RepairedMeaning | scripts/load_fo_bhavcopy_5y.py:277-285 | a row is dropped for its prices exactly without close and positive settlement price; reported open and close survive, high is the least bound above all reported prices and low the greatest below all but the reported high |
| BhavcopyParsers.TruncTowardsZero | scripts/load_fo_bhavcopy_5y.py:270-272 | counts are truncated towards zero, negative changes included |
| BhavcopyParsers.CandlesAreOrdered | scripts/load_fo_bhavcopy_5y.py:284-302 | every parsed candle has its prices in order, every option a positive strike and a valid side |
| BhavcopyParsers.CandlesPassChecks | alembic/versions/20260915_000000_v2_production_schema.py:350-354 | as the NUMERIC columns store them, all parsed candles satisfy the checks on prices and side, and an option the one on its strike exactly from 0.005 on |
| BhavcopyParsers.RefusedIff | alembic/versions/20260915_000000_v2_production_schema.py:441-452 | the tables refuse a parsed file exactly for a negative volume or open interest or a strike below 0.005 |
| BhavcopyParsers.NarrowerOutcome | scripts/load_fo_bhavcopy_5y.py:247-258 | a request with a symbol filter or only one kind of contract parses a row to the same candle or skips it |
| BhavcopyParsers.PlainFutureParses | scripts/load_fo_bhavcopy_5y.py:246-289 | a row with nothing but a closing price parses to a flat candle at it |
| BhavcopyLoad.Loader.LoadDay | scripts/load_fo_bhavcopy_5y.py:546-564 | a day loads its file's lines into both tables, or nothing: on a holiday, when a row violates a check of its table, or when the transaction fails otherwise |
| BhavcopyLoad.DayIsAllOrNothing | scripts/load_fo_bhavcopy_5y.py:546-564 | a downloaded day goes into both tables or, exactly when its transaction fails otherwise or one of its candles is refused, into neither |
| BhavcopyLoad.LoneFutureIsStored | scripts/load_fo_bhavcopy_5y.py:391-409 | a day's only future of its symbol is stored with every column its own |
| BhavcopyLoad.LoneOptionIsStored | scripts/load_fo_bhavcopy_5y.py:391-409 | and so is an option, with its strike and side |
| BhavcopyLoad.Loader.LoadDays | scripts/load_fo_bhavcopy_5y.py:581-599 | a list of days is one load of their lines, in order; each day is a download or a holiday |
| BhavcopyLoad.Loader.Run | scripts/load_fo_bhavcopy_5y.py:502-599 | both loops together are one load over all weekdays of the range, each in its own format |
| BhavcopyLoad.RowsComeFromTheirDay | scripts/load_fo_bhavcopy_5y.py:391-396 | all rows of a conflict key come from the file of one day |
| BhavcopyLoad.ReplayOfDays | scripts/load_fo_bhavcopy_5y.py:59-60 | re-running any selection of loaded days, in any order, changes nothing, if each brings all its lines of a key again or none |
| BhavcopyLoad.NarrowerFile | scripts/load_fo_bhavcopy_5y.py:247-258 | a narrower request brings all lines of a key or none of them |
| BhavcopyLoad.LinesAreWanted | scripts/load_fo_bhavcopy_5y.py:247-258 | what a day loads is of a kind of contract asked for and of the symbol the filter names |
| BhavcopyLoad.RerunOfDateRange | scripts/load_fo_bhavcopy_5y.py:59-60 | re-running any sub-range of dates leaves both tables unchanged, across the change of format too, with the same settings or a narrower symbol filter or choice of contracts, whichever of its days are not served or rolled back this time |
| BhavcopyLoad.TinyStrikeLosesDay | scripts/load_fo_bhavcopy_5y.py:592-599 | one option with a strike below 0.005 keeps the whole day out of both tables |
| BhavcopyLoad.ContractsCollide | scripts/load_fo_bhavcopy_5y.py:431-443 | a file with two futures of one symbol and different expiries becomes one row: prices of the second, expiry of the first, so neither contract's own |
| BhavcopyLoad.TwoExpiriesOneRow | scripts/load_fo_bhavcopy_5y.py:431-443 | such a file for any symbol and closing prices |
| BhavcopyLoad.StoredContractIsGenuineIff | scripts/load_fo_bhavcopy_5y.py:431-443 | a stored row is the last contract's row exactly when the row stored before, or else the first contract under the key, agrees with it in expiry, strike and side |
| FetchHook.BackfillRun.Begin | scripts/backfill_india_5y.py:374-382 | a task wraps whatever it finds installed and remembers it |
| FetchHook.BackfillRun.Complete | scripts/backfill_india_5y.py:415-417 | a finishing task puts back what it remembered; it is tallied by its result, and not at all when cancelled |
| FetchHook.CallThroughChain | scripts/backfill_india_5y.py:376-380 | any chain fetches once, returns the engine's own result and then pauses once per wrapper, and once more per wrapper of the chain re-entered for a provider fallback |
| FetchHook.RunsStayBounded | scripts/backfill_india_5y.py:630-675 | in every interleaving chains are no longer than the number of tasks started, running tasks no more than the permits, and every task is running, tallied or cancelled |
| FetchHook.TalliesAre | scripts/backfill_india_5y.py:630-675 | the summary counts the successful ends and lists the failed tasks in the order in which they ended |
| FetchHook.CaptureIsThePast | scripts/backfill_india_5y.py:374 | a running task holds what was installed when it started |
| FetchHook.FinishRewinds | scripts/backfill_india_5y.py:415-417 | a finishing task puts the hook back to the moment of its own start, undoing what others did meanwhile |
| FetchHook.RestoredIff | scripts/backfill_india_5y.py:415-417 | the engine's own method is installed exactly when cutting the run at its last finisher's start, repeatedly, leaves nothing |
| FetchHook.NestedRunsRestore | scripts/backfill_india_5y.py:374-417 | if tasks finish in nested order the chain is exactly the running tasks, and the original is back when none runs |
| FetchHook.OnePermitIsNested | scripts/backfill_india_5y.py:630-637 | at concurrency 1 every run is nested |
| FetchHook.AlwaysRestoredIff | scripts/backfill_india_5y.py:630-637 | every run that ends with no task running leaves the original installed, exactly at a concurrency of at most one |
| FetchHook.LeftoversGrow | scripts/backfill_india_5y.py:625-637 | at concurrency 2, for every n, 2n successful tasks can leave n wrappers installed |
| DeployQueue.DeployServer.Receive | scripts/webhook_server.py:209-228 | the answer and the new queue for every request |
| DeployQueue.DeployServer.Fetch | scripts/webhook_server.py:66-69 | the idle worker takes the oldest job |
| DeployQueue.DeployServer.Finish | scripts/webhook_server.py:68-73 | however a deploy ends the worker is idle again and the unfinished count, which was positive, drops by one |
| DeployQueue.NothingLost | scripts/webhook_server.py:60-73 | in every interleaving the jobs answered 202 are completed, then running, then queued, in order; the queue keeps its depth; at most depth plus one are outstanding |
| DeployQueue.AcceptedWerePosted | scripts/webhook_server.py:209-228 | only jobs for the configured branch that came in a verified request are ever accepted |
| DeployQueue.RefusedIffFull | scripts/webhook_server.py:209-228 | 429 exactly when a wanted push meets the full bounded queue, 202 exactly when it meets one that is not, 401 exactly without verification, 200 exactly for no job or another branch |
| DeployQueue.BusyIsNotSkipped | scripts/webhook_server.py:21 | at depth one a push during a deploy is queued; only the next one is refused |
| DeployQueue.RefusedWhileIdle | scripts/webhook_server.py:227-228 | a push can be refused as already in progress while no deploy runs |
| DeployQueue.WorkerDrains | scripts/webhook_server.py:64-73 | from every reachable state the worker alone completes every accepted job, in order |
| BackfillJobs.JobRegistry.TriggerBackfill | src/api/india.py:1116-1215 | a pending record exactly for well-formed dates with from before to, else 400 and no change |
| BackfillJobs.JobRegistry.BeginJob | src/api/india.py:1296-1301 | a starting job marks its own record running |
| BackfillJobs.JobRegistry.EndJob | src/api/india.py:1335-1347 | success, exception and cancellation write exactly their fields |
| BackfillJobs.JobRegistry.StatusCounts | src/api/india.py:993-1003 | the four counts are right and add up to the number of jobs |
| BackfillJobs.RunsStaySound | src/api/india.py:1296-1347 | in every interleaving: result exactly in COMPLETED, error exactly in FAILED, start time exactly after PENDING, the stored range not reversed |
| BackfillJobs.RecordsAreOfTheirEvents | src/api/india.py:1116-1347 | a job exists exactly when a well-formed request was made for it, and its record holds what its own events brought: symbol, range, times, result and error, and nothing else |
| BackfillJobs.CompletionMeansFinishedIff | src/api/india.py:1346-1347 | a completion time implies a terminal status exactly for jobs whose task was not cancelled while running |
| BackfillJobs.CancelledJobLooksRunning | src/api/india.py:1346-1347 | any accepted job that begins and is cancelled ends RUNNING with a completion time |
| BackfillJobs.StepTouchesOneJob | src/api/india.py:1296-1347 | an event moves its own job by at most one status and touches no other |
| BackfillJobs.JobsOnlyProgress | src/api/india.py:1296-1347 | over any continuation no job is lost, re-opened or rewritten once completed |
| StripCredentials.StrippedIsClean | src/api/providers.py:57-77 | no matching field name is left at any depth |
| StripCredentials.UnchangedIffClean | src/api/providers.py:57-77 | a value is unchanged exactly when none of its field names matches |
| StripCredentials.StripIsIdempotent | src/api/providers.py:57-77 | stripping twice is stripping once |
| StripCredentials.CleanPathsSurvive | src/api/providers.py:70-77 | a path survives exactly when it existed and no field on it matches, and leads to the stripped original; leaves and list positions are unchanged |
| StripCredentials.FieldOrderKept | src/api/providers.py:70-75 | remaining fields keep their order |
| StripCredentials.NamesThatMatch | src/api/providers.py:51-54 | a name matches exactly when `key`, `token`, `secret`, `password` or `credential` is somewhere in it, in any capitalisation; a name with none of them is kept |
| Paging.HistoryIs | src/api/instruments.py:613-626 | the query returns exactly the snapshots that pass the filters, newest version first |
| Paging.HistoryPage | src/api/instruments.py:628-675 | a page is the slice of the version-descending list, with its total and page count |
| Paging.PagesCoverHistory | src/api/instruments.py:628-675 | pages 1 to totalPages make up the whole list in order; all but the last are full; later ones are empty |
| Paging.QueryCandles | src/api/india.py:1427-1476 | the first max rows of the range; truncated exactly when there are more; the provider is the last row's |
| Paging.CandlesAre | src/api/india.py:1395-1426 | the range is exactly the good candles at its times, in ascending order |
| Paging.ReachedIsNotTruncated | src/api/india.py:1453-1454 | one candle asked for with a limit of one is the whole range, so the answer is not truncated |
| Paging.RangesJoin | src/api/india.py:1395-1402 | adjacent half-open ranges concatenate to the whole, without gap or overlap |
| Paging.TruncationResumes | src/api/india.py:1453-1454 | asking again from just after a truncated answer's last time yields exactly the rows that were cut |

## Left out

- HTTP, WebSocket, Redis, SQL driver, subprocess and logging plumbing; authentication and signature checks are the `Unverified` request.
- Connections.ConnectionManager.BroadcastTick: is one step, without the suspensions at its sends; `InterleavedBroadcast` states what a suspending broadcast keeps.
- The heartbeat, the Redis listener and their timing; both appear as `Expel` steps that may happen at any time.
- The handler's close path (`src/api/streaming.py:615`) uses a plain `with` on an asynchronous timeout; the intended disconnect is modelled as a step.
- Symbols.NormaliseIdempotent: covers ASCII letters and white space, because Unicode case folding is not modelled.
- `streaming_engine` missing from the application state, for which the handlers skip the mirror.
- Floating-point error: prices, ratios and losses are exact reals, rounding is to nearest with ties to even; infinite and NaN cells are not modelled.
- `_compute_pcr`, `_find_atm_strike` and `_find_atm_iv`: one-expression members with easy contracts.
- The date merge and the static lists of `scripts/seed_fo_universe.py`; its upsert is an instance of `PolicyUpsert`.
- `src/engines/fno_universe.py:631-665`, a second writer of the snapshot table; the histories here are those of the loader alone.
- SHA-256: different universes are taken to have different checksums.
- UniverseLoader.UniverseStore.LoadConstituents: returns the set of symbols; the enrichment with `instrument_master` and the row order are not modelled.
- Timestamps written by the database, and constant columns such as provider and source type.
- A missing legacy client, which makes a bhavcopy run skip the days before 2024, the dry runs, the statistics of a day that is rolled back, and values too large for a NUMERIC column, which appear as failures.
- BackfillJobs.RunsStaySound: promises of the stored range only that it is not reversed, because the record cuts it to milliseconds; the job itself runs on the exact instants, which differ.
- BhavcopyLoad.RerunOfDateRange: assumes that a file served again holds the same rows, and says nothing of days whose first load was rolled back and whose second succeeds.
- Expiry cells with digits or letters outside ASCII.
- A checkpoint reset that raises before the hook is installed, and the pauses between instruments.
- Interval and symbol validation of backfill requests, and what `HistoricalEngine`, `QualityEngine`, `MarketEngine` and `GapRecoveryEngine` compute; they are not part of this model.
- Paging.HistoryPage: is the answered query; the degraded empty answer without a database is not modelled.
