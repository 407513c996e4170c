# Verification of the grid bot's stateful cores

A Dafny model of the parts of the grid trading bot that keep state whose fast or concurrent form must agree
with a simple one, and proofs of what they promise. `dafny verify dfyconfig.toml` checks everything.

| file | what it models |
|---|---|
| `FillPages.dfy` | the page loop of `get_user_trades`: cursor, restart, de-duplication, exact completion |
| `FillSlots.dfy` | its clear-generations, eight progress slots and waiting queue |
| `FillCalls.dfy`, `CallTraces.dfy` | every interleaving of such calls, with locks, clears and cleanups, and what each of them comes to |
| `SharedCache.dfy` | the epoch-tagged shared cache with loads, symbol fallbacks, critical refreshes and retirements |
| `Trades.dfy`, `Hourly.dfy` | the trade table, its plain scan, and the hourly index that replaces it |
| `Revisions.dfy` | the per-symbol revision counters |
| `History.dfy` | inserts, verifications, clears and restarts, and the recovery metadata that outlives deletion |
| `Evidence.dfy` | the log of order responses and its de-duplication |
| `Position.dfy` | position arithmetic for fills |
| `PaperLedger.dfy`, `PaperStore.dfy` | the shared paper wallet and its agreement with the saved accounts |
| `GlobalConfig.dfy`, `SubmissionGate.dfy` | the all-or-nothing update of the global settings, and the order submissions racing with it |
| `Shutdown.dfy`, `ShutdownTraces.dfy`, `Lifecycle.dfy` | shutdown racing with a membership change, what a whole shutdown comes to, and the stop of one engine |
| `Basics.dfy`, `MapSum.dfy`, `Sequences.dfy` | shared definitions, sums over maps and selections from sequences |

How the system is put into Dafny's terms:

- Code that changes state in place is a class; each method's postcondition ties the new state to a function
  of the old one, and the lemmas are about those functions.
- Concurrent code is a state machine. A step is what one party does between two waits or lock releases, and
  the theorems quantify over every sequence of enabled steps. Shared pointers are fresh numbers.
- SQL tables are sequences (in row order) and maps; a transaction is one assignment, so a rolled-back one is
  no change. Text timestamps are assumed to sort as the instants they denote.
- `Decimal` is `real`; instants are integers (nanoseconds where the code compares them exactly); revision,
  epoch and advance counters are unbounded.
- The network, engines, clocks and foreign calls are parameters or step arguments without any assumption,
  except where a theorem says "honest server": a fixed set of fills with positive quantities that sum to the
  expected quantity, at most 1,000,000 of them, identifiers up to 2^63 - 1, a first page (without cursor) that
  is not empty, and every `fromId` page the first 1000 identifiers at or above the cursor.
- History fields (`failedCalls`, `built`, `advancedAt`, `before`, `replies`, `startedAt`, `requestedAt`,
  `accepted`, `requests`, `trace`) record what happened; no decision of the modelled code reads them.

Findings about the code:

- The shared wallet is not a function of its current contributions. With nothing open it shows the latest
  publication ever accepted into the asset, replaced or not (`PaperLedger.LatestUpdateIsLatestPublication`); an
  idle symbol saved at time 10 and then again at time 5 shows 10, saved only at time 5 it shows 5
  (`PaperLedger.IdleTimeRemembersReplacedPublications`). It is one exactly when a position is open or no replaced
  publication is later than every current one (`PaperLedger.WalletDependsOnContributions`).
- A request for the shared wallet can reach an `unwrap` that fails: exactly when the valuation is refused for being
  late and names an asset that has no ledger yet (`PaperLedger.SharedMeans`; `PaperLedger.LateValuationInNewAsset`
  is such an input). With an unchanging asset per symbol it cannot happen.
- The retry of `get_or_fetch` for a missing snapshot can never be taken (`SharedCache.ProjectedOwn`).
- The ledger's totals need no assumption that a symbol keeps its asset: a publication that moves a symbol to
  another asset is handled (`PaperLedger.PublishedKeeps`).

A remark on a domain: `apply_fill_to_position` conserves value for every quantity that is not negative, as all
its callers pass; with a negative one it does so only where `Position.ConservesIff` says
(`Position.NegativeQuantityLosesWorth` is an input where it does not).

## Model

| member | source | states |
|---|---|---|
| FillPages.PageSafety | src/exchange/client.rs:834-928 | Whatever page the server returns, a completed order has fills under distinct identifiers that add up exactly to the expected quantity, and otherwise the record stays one with `quantity` = sum of held fills < expected; it keeps all it held, starts again, or does not change |
| FillPages.ScanRefusesOnlyBadPages | src/exchange/client.rs:841-866 | A page is refused while it is read only for an invalid fill, or for two executions that disagree under the identifier the error names |
| FillPages.CompleteIsExact | src/exchange/client.rs:880-893 | A completed result holds every held fill, covers the page, has at most a million fills and sums exactly to the expected quantity |
| FillPages.ContinueProgresses | src/exchange/client.rs:895-921 | An accepted page is merged without losing a fill, and the cursor strictly advances to just past the page's largest identifier, or to 0 after the first page |
| FillPages.EveryPageIsJudged | src/exchange/client.rs:834-928 | Every page gets the verdict its content calls for, said of the page and of all fills seen so far and not of the scan: too large, a disagreement, more than the quantity, more than a million fills, complete, ended short of the quantity, or a cursor that cannot move; the record is emptied exactly for the million and for the short end, and any other refusal leaves it as it was |
| FillPages.PageIsPrefix | src/exchange/client.rs:794-805 | An honest full page is exactly the part of the book between the cursor and the page's maximum |
| FillPages.FullPageAdvances | src/exchange/client.rs:905-916 | A full honest page that does not complete the order takes exactly a thousand fills out of what is left above the cursor, and everything below the new cursor is held |
| FillPages.HonestStep | src/exchange/client.rs:834-921 | An honest page is never refused (Incomplete, Invalid cursor, did not advance, conflicts and limits are unreachable); it completes the order with exactly the true fills or leaves one page less to read |
| FillPages.CallSafety | src/exchange/client.rs:792-933 | One call of at most three attempts, cut short by any refusal, failure or clear, returns an exact result or leaves a saved record that lost nothing |
| FillPages.CallsEnd | src/exchange/client.rs:792-933 | How any call ends: after pages that all advanced, by an attempt that was refused, found the history cleared, failed, completed the order or was a page that did not advance; its failed-query mark is set exactly in the last three cases, and what it keeps is the record before that attempt, or the one that page leaves |
| FillPages.HonestCall | src/exchange/client.rs:792-933 | Against an honest server a call never breaks, and the pages it reads are exactly those it no longer needs |
| FillPages.ResumedCallsComplete | src/exchange/client.rs:782-933 | Calls resumed on a kept slot against an honest server never raise an error of the loop, return nothing but the complete set of fills, and finish by page 1 + ceil(n / 1000) |
| FillPages.FillProgress.constructor | src/exchange/client.rs:148-157 | A new record has no cursor, no fills and no quantity |
| FillPages.FillProgress.ReadPage | src/exchange/client.rs:834-866 | Reading a page in place is the scan: the same first refusal, or the same new fills, sum and largest identifier |
| FillPages.FillProgress.Receive | src/exchange/client.rs:834-921 | The loop body, in place, is the page step of which the properties above are proved |
| FillPages.FillProgress.Conclude | src/exchange/client.rs:867-921 | The decision after a scanned page: exceed, too many, complete, advance, incomplete, or a bad cursor, with the record each leaves |
| FillPages.FillProgress.Call | src/exchange/client.rs:792-933 | The three attempts of one call, in place; the mark its cleanup sees is set exactly when the attempt that ended it was a failed request or a page that did not advance |
| FillSlots.AdmitKeepsTable | src/exchange/client.rs:683-778 | No poll can break the limits: at most 8 cached orders, 1024 distinct waiters and 1024 symbols, and no order both cached and waiting |
| FillSlots.AdmitAnswers | src/exchange/client.rs:683-778 | Every poll is given the answer the table calls for: an accepted order without a slot gets one exactly when no other active waiter that the poll keeps stands before it and fewer than 8 orders are cached or an idle one failed three times or lay idle for two hours and the whole retention; it is refused for a full queue exactly when it has no place and 1024 active orders do; otherwise it waits |
| FillSlots.NobodyWaitsForNobody | src/exchange/client.rs:728-769 | An accepted order is seated at once when every other waiter has gone unpolled for the lease and a slot is free or can be freed |
| FillSlots.AdmitKeepsQueue | src/exchange/client.rs:705-769 | Nobody else gains or loses a place, except the first lapsed waiter of a full queue; the polled order keeps its place or takes the last while it waits, and has none once it is seated |
| FillSlots.AdmitHasEffect | src/exchange/client.rs:683-778 | A poll removes or adds only its own key, at most one evicted entry, and the entries of a symbol whose history it finds cleared |
| FillSlots.AdmitIsFair | src/exchange/client.rs:705-764 | A waiting order that is attended keeps its place: nobody new comes before it, and a new slot only goes to an order that was ahead of it, which then is no longer |
| FillSlots.OwnPollIsFair | src/exchange/client.rs:705-764 | An attended order that polls itself is seated or keeps its place |
| FillSlots.GrantRespectsTheQueue | src/exchange/client.rs:728-763 | A new slot is never given past an earlier waiter unless that one has been unpolled for the whole three-minute lease or this poll clears its symbol |
| FillSlots.Slots.NoteBacklog | src/exchange/client.rs:215-224 | The retention never shrinks and covers the backlog in rounds of three |
| FillSlots.Slots.FindVictim | src/exchange/client.rs:738-750 | The entry found is one that may be evicted and no evictable entry was used longer ago; none is found exactly when none may be |
| FillSlots.Slots.EnterGeneration | src/exchange/client.rs:685-704 | A newer clear revision moves the symbol's generation and drops its entries and waiters |
| FillSlots.Slots.PollWaiters | src/exchange/client.rs:712-727 | Refreshes or appends the waiter, replacing an inactive one when the queue is full |
| FillSlots.Slots.TakeSeat | src/exchange/client.rs:728-769 | The turn, the eviction and the slot, in place, are the seating step whose answer and effect the properties above fix |
| FillSlots.Slots.Request | src/exchange/client.rs:683-778 | The whole admission under the cache lock, in place; its answer is the one the table it finds calls for |
| FillCalls.StepKeeps | src/exchange/client.rs:177-196 | Every step of any interleaving of calls, clears, failures and cleanups keeps the records, entries and locks consistent |
| FillCalls.RunKeeps | src/exchange/client.rs:672-934 | So does every run |
| FillCalls.ReachableStatesAreSafe | src/exchange/client.rs:683-934 | In every reachable state the limits hold, every cached record that is not being completed is saved (its quantity the sum of its fills, short of the expected), and it was built from pages of its symbol's current clear-generation alone, although older calls may still be running |
| FillCalls.CompletedCallsAreExact | src/exchange/client.rs:880-893 | In any interleaving a call that completes has fills that sum exactly to what it was asked for, all of its own order |
| FillCalls.EvictionIsEarned | src/exchange/client.rs:735-754 | Whatever entry a poll removes, of its own symbol or of another, belongs to a symbol this poll finds cleared; or all slots were taken, no call was using it, and since its record really advanced last it really failed three times or lay idle for two hours and the whole retention |
| FillCalls.CleanUpIsLocal | src/exchange/client.rs:177-196 | A cleanup changes no entry but the one whose record its call worked on, and charges a failure only for a failed query without any advance |
| FillCalls.GivingUpNeverCounts | src/exchange/client.rs:795-796 | A refused budget or a cancelled call never raises the failure count of an order |
| FillCalls.ClearedReplyNeverCounts | src/exchange/client.rs:826-828 | Nor does a reply that arrives after its symbol has been cleared |
| FillCalls.FailedRequestCounts | src/exchange/client.rs:807-825 | A failed request counts once against an order whose call has not advanced it, and leaves no failure when the call has |
| FillCalls.CallIsCharged | src/exchange/client.rs:792-933 | What a whole call and its cleanup do to the cache: no other entry changes; the order's own is dropped exactly when its record is not worth keeping, and otherwise cleared of failures when the call merged a page, charged with one more when its first attempt failed or brought a page that did not advance it, and unchanged when the budget refused it or the history was cleared |
| FillCalls.RetentionIsLongest | src/exchange/client.rs:215-224 | Over any run waiters are remembered for the longest time any backlog has asked for |
| FillCalls.StepIsFair | src/exchange/client.rs:705-764 | After any step of the whole system a queued order that the step attends is seated, or still queued with no more orders ahead of it than before, and with one less if a seat was given past it |
| FillCalls.FillCacheCleanup.Drop | src/exchange/client.rs:177-196 | The cleanup in place: drop an empty record's entry, charge a stall, clear it, or touch nothing when the entry is not the call's own |
| FillCalls.OvertakingIsBounded | src/exchange/client.rs:728-763 | Over any run the orders seated before an attended waiter are at most those that were queued ahead of it |
| CallTraces.BeginMeans | src/exchange/client.rs:772-791 | An admitted call begins on the record its slot has kept, or on an empty one for a new slot or another quantity; one that is not admitted changes no call and no record |
| CallTraces.RunFollows | src/exchange/client.rs:792-934 | Every step of every interleaving keeps each call where the uninterrupted call is after the replies it has met |
| CallTraces.InterleavedCallsAreCalls | src/exchange/client.rs:792-934 | In every reachable state a call that has ended has made of its record, and of the mark its cleanup sees, exactly what the uninterrupted call makes of them with the same replies; one that stops without an error has made all three attempts; one that is completing returns the uninterrupted call's result |
| SharedCache.StepKeeps | src/exchange/cache_entries.rs:41-154 | Every step of any interleaving of loads, fallbacks, critical refreshes and retirements keeps the invariant of entries and callers |
| SharedCache.RunKeeps | src/exchange/cache_entries.rs:41-154 | So does every run, and steps are numbered by their tick |
| SharedCache.RetryOwn | src/exchange/cache_entries.rs:114-153 | A retry of a load is charged to a replacement of the key since the load looked its entry up |
| SharedCache.ProjectedOwn | src/exchange/cache_entries.rs:145-148 | A load that reaches the projection always finds a snapshot, so that retry cannot happen |
| SharedCache.LoadsAreFresh | src/exchange/cache_entries.rs:100-154 | Over all interleavings, the value a load returns is the reply to a request for its key that was started after every retirement and every detach of the key up to its final check |
| SharedCache.RefreshesAreFresh | src/exchange/cache_entries.rs:61-75 | The value a critical refresh returns is the reply to a request started after every retirement of the key up to its return |
| SharedCache.EntriesHoldNothingOld | src/exchange/cache_entries.rs:128-144 | The snapshot and the cooling failure in the current entry of a key stem from requests started after every replacement of the key: no late result of a detached loader reaches a newer entry |
| SharedCache.LateResultsStayLocal | src/exchange/cache_entries.rs:131-144 | A detached loader's late value or failure leaves the current entry of every key as it was |
| SharedCache.OneLoaderPerEntry | src/exchange/cache_entries.rs:115-144 | Two loaders of one entry never fetch at the same time |
| SharedCache.FailuresServeNothing | src/exchange/cache_entries.rs:128-144 | After a failed request an entry serves nothing, not even what it served before, until a request succeeds |
| SharedCache.RetriesAreBounded | src/exchange/cache_entries.rs:61-154 | A load or fallback retries at most once per replacement of its key since its call, a critical refresh at most once per retirement (detaches by other refreshes do not count), and each makes at most one more request of its own |
| SharedCache.RunIsTraced | src/exchange/cache_entries.rs:61-154 | Every value held anywhere is the reply to a recorded request for that key, with the request's start |
| SharedCache.FetchedIsReturned | src/exchange/cache_entries.rs:131-153 | A value that has been fetched is returned: if a load's request succeeds and its entry is current at its two checks, it stores that value and returns it, whatever other callers do in between |
| SharedCache.RefreshedIsReturned | src/exchange/cache_entries.rs:61-75 | A critical refresh returns what it has fetched unless its key was retired since it began |
| SharedCache.FallbackIsReturned | src/exchange/position_cache.rs:62-78 | A load whose symbol is missing asks for the symbol itself and, while its entry is current, ends with the answer to that request, value or failure |
| SharedCache.StoreAdvances | src/exchange/cache_entries.rs:134-144 | A successful request becomes the entry's snapshot and ends its cooling; a failed one leaves it without a snapshot, cooling from the request's start |
| SharedCache.OnlyTheseReturn | src/exchange/cache_entries.rs:149-153 | A caller returns exactly when its last check finds its entry current, or its key not retired; a load that misses its symbol never returns the shared snapshot |
| SharedCache.OnlyTheseFail | src/exchange/cache_entries.rs:114-140 | A caller fails exactly by a lock time-out, a cooling failure, a failed request of its own or a failed fallback of its own |
| SharedCache.FailuresAreReal | src/exchange/cache_entries.rs:61-154 | Over every run a caller that fails otherwise than by a time-out or a cooling failure was last answered with a failure |
| SharedCache.ActsOnCurrentEntry | src/exchange/cache_entries.rs:117-133 | A load serves a cooling failure, keeps or drops a snapshot and starts a request only right after it has found its entry current under the lock, and stores a reply, or fails for one, only right after another such check |
| SharedCache.OwnStepsProgress | src/exchange/cache_entries.rs:61-154 | Every step of a caller brings it nearer to its end, or its entry was replaced (its key retired) and it starts again |
| SharedCache.NobodyIsStuck | src/exchange/cache_entries.rs:61-154 | A caller that has not ended can take a step of its own, or waits for the lock of its entry, which another load holds |
| SharedCache.CallersEnd | src/exchange/cache_entries.rs:61-154 | Over every run a caller takes at most 12 steps of its own for each time it begins again, and it begins again at most once per replacement (retirement) of its key since its call |
| SharedCache.CacheEntries.constructor | src/exchange/cache_entries.rs:33-39 | The map starts empty |
| SharedCache.CacheEntries.Entry | src/exchange/cache_entries.rs:77-81 | Looks the entry up, creating the first one |
| SharedCache.CacheEntries.Detach | src/exchange/cache_entries.rs:44-49 | Replaces the entry and keeps the epoch |
| SharedCache.CacheEntries.DetachIfCurrent | src/exchange/cache_entries.rs:51-59 | Replaces the entry only while the epoch is the expected one |
| SharedCache.CacheEntries.Retire | src/exchange/cache_entries.rs:84-90 | Replaces the entry and moves the epoch on |
| SharedCache.CacheEntries.IsCurrent | src/exchange/cache_entries.rs:92-98 | True exactly when epoch and entry are still the mapped ones |
| Trades.Hour | src/db/hourly.rs:63-65 | The start of the hour that contains the timestamp, also before 1970 |
| Trades.BeijingMidnight | src/db.rs:30-40 | The latest UTC+8 midnight not after `now`, which starts an hour |
| Trades.ScanCounts | src/db/hourly.rs:20-32 | The plain scan counts rows: its buys, sells and pending are the numbers of such rows in the window |
| Trades.ScanProfit | src/db/hourly.rs:20-32 | Its profit is the sum of the profits of the verified rows in the window |
| Trades.ScanLatest | src/db/hourly.rs:27-31 | Its latest timestamp is the maximum over the window |
| Trades.ScanSplit | src/db/hourly.rs:244-248 | Adjacent windows add up |
| Trades.ScanVerify | src/db.rs:2029-2048 | Verifying one pending row moves exactly its profit from pending to realised in every window that contains it |
| Hourly.EnteredIsIndexed | src/db/hourly.rs:167-177 | An insert keeps every stored hour equal to the scan of its trades |
| Hourly.VerifiedIsIndexed | src/db/hourly.rs:179-192 | So does a verification |
| Hourly.PendingIsStored | src/db/hourly.rs:188 | A pending trade is always found pending in its hour |
| Hourly.StoredHourSuffices | src/db/hourly.rs:224-227 | A stored hour whose latest trade is not after `now` equals the scan clipped at `now` |
| Hourly.Rollup.Add | src/db/hourly.rs:20-32 | Adds one trade to the tally, its profit only if verified |
| Hourly.Rollup.AddRow | src/db/hourly.rs:51-60 | The same for a stored row |
| Hourly.Rollups.InsertOn | src/db/hourly.rs:167-177 | Load, add, save |
| Hourly.Rollups.VerifyOn | src/db/hourly.rs:179-192 | Moves one pending trade to the profit, or fails and changes nothing when none is pending |
| Hourly.Rollups.MigrateOn | src/db/hourly.rs:69-130 | The backfill gives every row its hour and every hour exactly its tally; run again it changes nothing |
| Hourly.Rollups.BoundaryHour | src/db/hourly.rs:228-243 | The recomputed boundary hour is the scan of that hour up to `now` |
| Hourly.Rollups.StatsOn | src/db/hourly.rs:194-251 | For every `now` the statistics read from the index say, of the rows from Beijing midnight: bucket i holds the numbers of buys and of sells in the day's hour i up to `now`, the profit is the sum over the verified rows and the pending count that of the others |
| Hourly.PlainStatsMean | src/db/hourly.rs:194-251 | So do the plain statistics, which name the day's start and every hour begun so far |
| Hourly.TodayPnl | src/db.rs:2097-2150 | There is a group for exactly the scopes that traded in the window, with the sum of their verified profits and the number of their pending trades; the date range of the query loses no row |
| Hourly.StatsAgreeWithGroups | src/db.rs:2097-2150 | The index and the day's groups agree for every scope |
| Revisions.ReplayFindsLastTouch | src/db.rs:49-96 | A symbol's revision is the number of the last publish of it or clear of everything |
| Revisions.ReadingsAgreeIffUntouched | src/db.rs:55-67 | Two readings of a symbol's revision are equal exactly when no publish of it and no clear-all came between, although a clear empties the map |
| Revisions.EventRaises | src/db.rs:85-95 | An event raises the revision of the symbols it touches and no other |
| Revisions.RevisionTracker.Publish | src/db.rs:85-89 | Publishing appends one event to the log that the counters stand for |
| Revisions.RevisionTracker.ClearAll | src/db.rs:91-95 | So does clearing everything |
| Revisions.RevisionTracker.SymbolRevision | src/db.rs:81-83 | Reads the last touch of the symbol in the log |
| Revisions.RevisionTracker.Current | src/db.rs:77-79 | Reads the number of events so far |
| History.RunKeeps | src/db.rs:1187-1245 | Any run of inserts, verifications, clears and restarts keeps live rows, cleared ids, frontiers, openings and hourly tallies consistent with the whole accepted history |
| History.InsertKeeps | src/db.rs:2706-2748 | An insert, accepted or refused, keeps them consistent |
| History.ClearKeeps | src/db.rs:2653-2704 | A clear of one symbol or of everything keeps them consistent: what is deleted is accounted for by what is kept |
| History.VerifyKeeps | src/db.rs:2006-2055 | A verification keeps them consistent |
| History.OpenedIsValid | src/db.rs:978 | Saved tables, with or without cleared history, are consistent again once the rows have been indexed |
| History.UnclearedIsStored | src/db.rs:978 | Any trades with distinct ids that were never cleared are such tables |
| History.ReopenKeeps | src/db.rs:978 | A restart, which resets the revisions, keeps the tables consistent |
| History.ScopeSplits | src/db.rs:1977-1990 | The history of a scope is its cleared trades followed by its live ones |
| History.LastFillCoversWholeHistory | src/db.rs:1977-2003 | Over any run the last fill of a scope is that of the trade with the greatest timestamp ever accepted, cleared or not, and among equals the one accepted last; a price that is not positive is reported |
| History.ClearKeepsLastFill | src/db.rs:2653-2667 | A clear, of whatever extent, does not change any scope's last fill |
| History.PairOpeningsSurvive | src/db.rs:1937-1964 | A pair opening is found for exactly the orders ever filled, and it is side, price and quantity of a latest fill of the order, cleared or not |
| History.ClearKeepsPairOpening | src/db.rs:2692-2704 | A clear leaves the answer as it was when the order's latest fill is unique |
| History.AcceptedIdsAreFiledOnce | src/db.rs:2668-2677 | Every accepted trade id is at all times in exactly one of the live trades and the cleared ids |
| History.RecordedMeansAccepted | src/db.rs:1966-1974 | An order is reported as recorded exactly when one of its trades was ever accepted |
| History.RecordedOrdersStay | src/db.rs:1966-1974 | Once recorded an order stays recorded over any run |
| History.ClearedOrdersStayClosed | src/db.rs:2706-2715 | No trade of a cleared client order id and mode is accepted again in any later run |
| History.InsertAcceptsOnce | src/db.rs:2706-2748 | A trade is accepted exactly when its id is new to the whole history and its order has not been cleared |
| History.PendingIsNeverMissing | src/db/hourly.rs:188 | The error for a missing pending trade is unreachable |
| History.VerificationIsOnce | src/db.rs:2005-2055 | After the first success, no later attempt in any run verifies the trade again or changes anything |
| History.ClearRaisesRevision | src/db.rs:1223-1245 | Over a run a symbol's clear revision changes exactly when the run clears it |
| History.StaleVerificationChangesNothing | src/db.rs:2010-2025 | A verification of a trade read before a clear of its symbol changes no row, whatever revision it carries and whatever was inserted, verified, cleared or restarted since |
| History.StaleRevisionSparesSymbol | src/db.rs:2011-2024 | A revision read before a clear of the symbol changes no row of that symbol, not even one inserted since under the same id |
| History.TimelyVerificationSucceeds | src/db.rs:2011-2055 | Without such a clear it settles exactly the pending trade it was read for |
| History.VerificationMeans | src/db.rs:2006-2055 | A verification gives the one row that awaits it under its id and mode the verified profit, commission and maker flag and changes no other; it changes nothing exactly when no row awaits it or the row's symbol has been cleared since the read |
| History.ChangesRaiseRevision | src/db.rs:441-450 | A view of a symbol's trades kept under its data revision is never stale: any change of its rows raises the revision |
| History.Database.constructor | src/db.rs:978 | Opening saved tables, of any age and after any clears, backfills the hours once and keeps everything else; an indexed database is opened as it is |
| History.Database.InsertTrade | src/db.rs:1187-1206 | In place: refused without effect, or row, hour and revision together |
| History.Database.ClearTradesOn | src/db.rs:2653-2690 | In place: recovery metadata first, then the deletions, then the revisions |
| History.Database.ClearTrades | src/db.rs:1212-1245 | The same for a consistent database, with the number of deleted rows |
| History.Database.VerifyTradePnl | src/db.rs:2006-2055 | In place: the awaited row gets the verified amounts, or nothing changes; it never fails |
| History.Database.PendingTrades | src/db.rs:2194-2212 | The asked page of a scope's pending rows in descending order of time, all of them if a first page is not full, together with the clear revision they belong to |
| History.PageMeans | src/db.rs:2194-2212 | A page holds only pending rows of the scope, and a first page all of them unless it is full |
| History.Database.LastFill | src/db.rs:1977-2003 | The query's answer is the newest of the whole history |
| History.Database.PairOpening | src/db.rs:1937-1964 | An allowed answer, absent exactly for orders never filled |
| History.Database.HasRecorded | src/db.rs:1966-1974 | True exactly for orders ever accepted |
| History.Database.HourlyTradeStats | src/db.rs:2084-2094 | In every reachable state, for every `now`, the counts of each hour's buys and sells, the verified profit and the pending count of the day |
| Evidence.QueriesAreDeduplicated | src/db.rs:1654-1690 | The stored history of an order that is only queried singly, each time under an id and batch of its own, is the observed one with consecutive repeats removed, whatever else is saved in between |
| Evidence.LatestSnapshotIsLastObserved | src/db.rs:1610-1653 | The latest stored snapshot of an owner is the last one observed, although unchanged snapshots are not stored again |
| Evidence.SaveLosesNothing | src/db.rs:1592-1726 | After a successful save every observed client id and response is in the log |
| Evidence.OnlyRepeatsAreDropped | src/db.rs:1606-1726 | A successful save leaves the log as it was when it asks for de-duplication and repeats the owner's last stored snapshot under another batch, or, under an unused id and batch, the last stored query of its order, which is alone in its batch; every other one stores each of its observations |
| Evidence.RunLosesNothing | src/db.rs:1592-1726 | So it is at the end of any run |
| Evidence.RetryAddsNothing | src/db.rs:1549-1551 | Repeating a successful save succeeds and adds nothing |
| Evidence.StoredRowsAddNothing | src/db.rs:1691-1722 | Repeating stored rows adds nothing, however much has been saved since |
| Evidence.SaveFailsIffReused | src/db.rs:1711-1721 | A save fails exactly when it repeats nothing and reuses an observation id with different data, and then leaves the table as it was |
| Evidence.EvidenceLog.SameSnapshot | src/db.rs:1610-1653 | The element-by-element comparison decides whether the snapshot repeats the last stored one |
| Evidence.EvidenceLog.InsertRows | src/db.rs:1691-1722 | Inserts row by row and undoes everything on a conflict |
| Evidence.EvidenceLog.Save | src/db.rs:1592-1726 | One transaction, in place, is the save of which the properties above are proved |
| PaperLedger.PositionMargin | src/types.rs:330-337 | The margin times the leverage, at least 1, is the absolute size at the mark price or, without one, at the entry price; so it is not negative when that price is not |
| PaperLedger.PublishedKeeps | src/db/paper.rs:184-216 | After any publication, accepted or refused, every asset's totals are the sums over its current contributions and its valuation times are exactly those of its open contributions |
| PaperLedger.LedgerIsConsistent | src/db/paper.rs:79-90 | In such a ledger every `unwrap` of a publication succeeds |
| PaperLedger.CommittedKeeps | src/db/paper.rs:173-182 | A commit keeps the totals exact |
| PaperLedger.CommitMeans | src/db/paper.rs:173-182 | A commit makes the symbol's contribution that of the account, ends the symbol's mark in its quote asset, and leaves every other contribution and mark; an asset without marks is free again |
| PaperLedger.LegacyMeans | src/db/paper.rs:159-171 | A symbol with history and no contribution marks its quote asset, and nothing else changes |
| PaperLedger.PublicationMeans | src/db/paper.rs:184-216 | A late valuation changes nothing; any other publication makes the contribution of its symbol show the position and account: wallet, open profit, margin at the leverage, size, entry price, the earlier of the two times exactly while the size is not zero, and the update time; no other contribution changes |
| PaperLedger.ContributionsShowLatest | src/db/paper.rs:184-216 | Over any run each contribution shows the latest accepted publication of its symbol |
| PaperLedger.WalletShowsLatest | src/db/paper.rs:102-117 | Over any run the shared wallet is 10000 plus the sums of balances, open profits and margins of the latest accepted publications of the asset's symbols |
| PaperLedger.SharedMeans | src/db/paper.rs:218-240 | What a request for the wallet gives: an error for a missing asset or unresolved history, the wallet after the valuation, or the failing `unwrap`, exactly when the valuation is late and its asset has no ledger |
| PaperLedger.LateValuationInNewAsset | src/db/paper.rs:234-239 | A concrete late valuation in a new asset reaches that `unwrap` |
| PaperLedger.QuoteAssetMeans | src/types.rs:381-385 | The quote asset of a symbol is the one of FDUSD, USDC, USDT and BUSD that it ends with, or the symbol itself if there is none |
| PaperLedger.WalletIsSum | src/db/paper.rs:102-117 | The shared wallet's balances are sums over the contributions, and while a position is open its time is the oldest open valuation |
| PaperLedger.LatestUpdateIsLatestPublication | src/db/paper.rs:92-100 | Over any run of loads, commits, valuations and legacy records, an asset's update time is the latest of all publications ever accepted into it, current or replaced, and an asset exists exactly when there was one |
| PaperLedger.ContributionsWerePublished | src/db/paper.rs:184-216 | The current contributions are among those publications |
| PaperLedger.WalletDependsOnContributions | src/db/paper.rs:102-117 | Over any run the shown wallet is the one determined by the current contributions alone exactly when a position is open or no replaced publication is later than every current one |
| PaperLedger.SameContributionsSameWallet | src/db/paper.rs:102-117 | Two runs that end with the same contributions show the same wallet exactly when a position is open or their latest publications have the same time |
| PaperLedger.ValuationsMoveForward | src/db/paper.rs:55-67 | A valuation never moves a contribution back in time, and touches no other symbol's |
| PaperLedger.IdleTimeRemembersReplacedPublications | src/db/paper.rs:92-100 | With nothing open the update time depends on publications that have been replaced (a concrete case) |
| PaperLedger.PaperBook.PublishOn | src/db/paper.rs:184-216 | The in-place update of contribution and totals, which the publication theorems describe |
| PaperLedger.PaperBook.Publish | src/db/paper.rs:184-216 | The same: the totals stay exact, and the contribution shows what was published, or the valuation was late |
| PaperLedger.PaperBook.Commit | src/db/paper.rs:173-182 | In place: contribution, totals and the end of the mark |
| PaperLedger.PaperBook.RecordLegacy | src/db/paper.rs:159-171 | In place: a known symbol stays known, another blocks its quote asset |
| PaperLedger.PaperBook.SharedWallet | src/db/paper.rs:218-240 | In place: missing asset, unresolved history, the wallet after the valuation, or the failing `unwrap` |
| PaperStore.CacheAgreesWithRows | src/db/paper.rs:243-266 | From any saved rows and over any run of trades, resets, valuations and restarts, the cache agrees with the rows whenever it exists: wallet, size and entry price |
| PaperStore.ValuationKeeps | src/db/paper.rs:55-66 | A valuation, however stale, cannot roll back a saved wallet or its holdings |
| PaperStore.CommitKeeps | src/db.rs:1304-1325 | A committed state replaces row and contribution together |
| PaperStore.StepKeeps | src/db.rs:1261-1327 | Every step keeps cache and rows in agreement |
| PaperStore.WalletIsComplete | src/db/paper.rs:218-240 | A wallet is shared only when every symbol with paper history in its quote asset has a contribution |
| PaperStore.LastSavedStands | src/db.rs:1251-1325 | The account saved last for a symbol, with a paper trade or as a fresh start, stands through valuations, other trades and restarts until another is saved for it |
| PaperStore.SavedIsShown | src/db.rs:1313-1321 | An account that is saved is counted at once: in an existing cache it is committed, and nothing else changes |
| PaperStore.HistoryIsFiled | src/db.rs:1187-1206 | Over any run a symbol has paper history exactly when it began with some or a paper trade, or one of unknown mode, has been inserted |
| PaperStore.LoadAccounts | src/db/paper.rs:129-147 | Loading takes over every saved account as a committed contribution, or fails on a missing asset |
| PaperStore.Load | src/db/paper.rs:129-157 | Loading gives a ledger with exact totals that agrees with the rows and knows every legacy symbol |
| PaperStore.PaperDatabase.Record | src/db.rs:1261-1327 | Row and cache change together |
| PaperStore.PaperDatabase.InitializeLegacy | src/db.rs:1358-1391 | Refused for a symbol with an account or without history; otherwise a flat account with the initial balance, in row and cache together |
| PaperStore.PaperDatabase.SharedPaperAccount | src/db/paper.rs:246-266 | Loads the ledger on first use and shows the wallet; a failed load changes nothing |
| Position.FillConserves | src/types.rs:340-377 | At any mark a fill changes realised plus open profit by exactly signed quantity times the distance from the fill price to the mark |
| Position.FillsConserve | src/types.rs:340-377 | After any fills from flat, through adds, partial and exact closes and flips, realised plus open profit at any mark is the sum of what the fills earn |
| Position.ConservesIff | src/types.rs:340-377 | With a positive price a fill conserves exactly when its quantity is not negative or it offsets the position at its own entry price |
| Position.NegativeQuantityLosesWorth | src/types.rs:340-377 | Buying -1 at 1 from flat is an input at which it does not |
| Position.EntryIsWithinLeg | src/types.rs:340-377 | An open position's entry price lies between the lowest and highest price of its current leg, and a closed one's is zero |
| Position.FillSplits | src/types.rs:340-377 | Two fills at one price on one side come to the same position and profit as one fill of their total, even across a flip |
| GlobalConfig.UpdateIsAllOrNothing | src/runtime.rs:204-286 | The update ends with all active engines, database and limit new; or with nothing changed; or with a reported failure, database and limit old, and every active engine asked to pause; a request is turned away, unchanged, exactly as its error says |
| GlobalConfig.UpdateSucceedsIff | src/runtime.rs:204-286 | It succeeds exactly when the request is current and valid for every active engine, every engine acknowledges, and the save succeeds |
| GlobalConfig.UpdateIsOrdered | src/runtime.rs:235-284 | The whole exchange: engines are asked in order until one refuses, the database only when all have acknowledged, nothing follows a success, and after a failure only restores of old settings follow, and pauses of every engine exactly if one of those is refused |
| GlobalConfig.RestoreMeans | src/runtime.rs:257-265 | Rolling back brings every tried engine back or reports the failure, and touches no other |
| GlobalConfig.RestoreSendsWhereNeeded | src/runtime.rs:257-265 | The rollback sends each tried engine its old settings exactly once if it no longer holds them, and nothing if it still does, whatever the others need |
| GlobalConfig.Settings.SendGlobalConfig | src/runtime.rs:184-202 | One request to one engine |
| GlobalConfig.Settings.SendToAll | src/runtime.rs:237-245 | Tries the engines in order up to the first refusal, noting the old settings |
| GlobalConfig.Settings.RestoreAll | src/runtime.rs:257-265 | Restores in reverse order |
| GlobalConfig.Settings.Propagate | src/runtime.rs:237-285 | Install, save, or undo |
| GlobalConfig.Settings.ApplyGlobalConfig | src/runtime.rs:204-286 | The whole update, in place, is the update of which the properties above are proved |
| SubmissionGate.StepKeeps | src/runtime.rs:204-286 | Every step of any interleaving of submissions, joining and retiring engines and updates that take one write guard after another keeps the invariant: held guards have no submission in flight, and the update will come to what an uninterrupted one comes to |
| SubmissionGate.RunKeeps | src/runtime.rs:204-286 | So does every run |
| SubmissionGate.NoOrdersDuringUpdate | src/runtime.rs:229-236 | Over every interleaving, from the first settings sent to the end, through the save and any rollback, no submission of an active engine begins and none is in flight |
| SubmissionGate.DrainedThenSent | src/runtime.rs:226-241 | Such runs exist: an engine with a submission in flight is drained, locked and sent the new settings |
| SubmissionGate.SubmissionsSeeOneConfig | src/server/state.rs:1588-1600 | A submission runs from beginning to end under the settings its engine had when it began |
| SubmissionGate.SubmissionsUseSavedSettings | src/runtime.rs:229-231 | No submission begins under settings that are not durable: its engine holds the saved ones or has been asked to pause |
| SubmissionGate.RetiredIsLeftAlone | src/runtime.rs:219-221 | Over every run an engine that has been retired is never again asked to install settings and begins no submission |
| SubmissionGate.UpdateEndsAsApplied | src/runtime.rs:204-286 | An interleaved update ends with exactly the outcome and the settings of the uninterrupted one, of which the properties above are proved |
| SubmissionGate.OnlySubmissionsHoldUp | src/runtime.rs:231-234 | An update can always take its next step, except that it waits for the next engine's submissions in flight to end, which they can |
| SubmissionGate.UpdateGoesOn | src/runtime.rs:231-285 | Its steps bring it nearer to its end, at which it lets go of every engine, and no other step delays it |
| SubmissionGate.UpdateStepsAreBounded | src/runtime.rs:231-285 | Over every run it takes at most four steps per active engine, and four more, before it ends |
| Shutdown.StepKeeps | src/runtime.rs:104-174 | Every step of engines, membership command, early stops and shutdown keeps the invariant |
| Shutdown.TaskStepOwn | src/lifecycle.rs:117-153 | No early stop asks an engine that has been asked before, and none is asked before its pause has been saved |
| Shutdown.CloseStepOwn | src/lifecycle.rs:117-194 | Nor does the shutdown; a member it is done with has finished, and its pause is saved or an error is reported |
| Shutdown.RemovalStepFits | src/runtime.rs:944-959 | A removal asks its engine once: nothing else can have asked it since the claim |
| Shutdown.ConsideredOwn | src/runtime.rs:133-174 | An engine whose removal holds the claim is never stopped early |
| Shutdown.StopsAreAskedOnce | src/runtime.rs:1147-1204 | Over any run no engine instance is sent a second Shutdown request |
| Shutdown.NoClaimAfterStop | src/runtime.rs:944-954 | Once the stop flag is set no removal claims an engine and no command begins |
| Shutdown.EarlyStopCoversMembers | src/runtime.rs:133-174 | An early shutdown starts to stop every engine it considers unless a removal owns it or its symbol |
| Shutdown.ShutdownLeavesNothingRunning | src/runtime.rs:1147-1204 | When the shutdown returns, every engine there ever was has finished and no command or claim is left; every member's pause has been saved, or the last attempt to save it failed and an error is reported; without an error all are saved |
| ShutdownTraces.ShutdownIsCleanIff | src/runtime.rs:1147-1204 | Over any run the shutdown returns without an error exactly when every member was asked with success, by its early stop or by the shutdown, was still there to be waited for, exited in time and had its recovery committed |
| ShutdownTraces.StopsAreSentOnce | src/lifecycle.rs:117-153 | Over any run an engine that it finds running is really sent at most one stop request, by its removal, its early stop or the shutdown, and counts as paused exactly when one of these, or the end of a stop that was given up, has really saved its pause |
| ShutdownTraces.MembersArePublished | src/runtime.rs:132-136 | In every run the engines published to early stops are exactly the members |
| ShutdownTraces.EarlyCallReachesAll | src/runtime.rs:133-174 | An early shutdown call that ends has reached every engine that was published when it looked: it is being stopped, or a removal stops it |
| ShutdownTraces.StopLasts | src/runtime.rs:104-110 | A shutdown that has been requested stays requested |
| ShutdownTraces.CommandGoesOn | src/runtime.rs:944-1071 | A membership command goes on step by step to its end, and nothing else moves it |
| ShutdownTraces.CommandIsNeverStuck | src/runtime.rs:944-1071 | It always has a next step, and its end lets go of the claim |
| ShutdownTraces.ReplacementKeepsSymbols | src/runtime.rs:1012-1071 | In every run a replacement that becomes a member stands in for an engine of its own symbol and leaves the traded symbols as they were |
| ShutdownTraces.ShutdownIsNeverStuck | src/runtime.rs:1147-1204 | Once begun the shutdown always has a step to take until it returns, whatever the engines do |
| ShutdownTraces.ShutdownGoesOn | src/runtime.rs:1147-1204 | Every such step brings its end nearer, and nothing that can still happen delays it |
| ShutdownTraces.ShutdownEnds | src/runtime.rs:1147-1204 | It takes at most three steps per member, two per early stop and one more |
| Lifecycle.EngineStop.Begin | src/lifecycle.rs:117-153 | Bars submissions at once, then pauses and asks within the deadline |
| Lifecycle.EngineStop.Finish | src/lifecycle.rs:155-194 | Waits, aborts, pauses again or commits the recovery |
| Lifecycle.EngineStop.StopEngine | src/lifecycle.rs:82-89 | However the engine behaves it is asked at most once and has finished; success, abort, renewed pause and recovery happen exactly in their cases |

## Left out

- HTTP, request signing, JSON decoding, rate limits and WebSocket streams: foreign calls; a refused budget, a failed query and a page or value received are steps or step arguments.
- SQLite itself, schema creation, file permissions, process locks, exports and vacuuming: foreign calls; a failing statement is a transaction that did not happen.
- Engine internals, the server's routes, the backtest and the user interface: engines are parties that acknowledge, refuse, exit or hang.
- `Decimal` rounding and overflow (`checked_add`), saturation of `advances`, and wrap-around of epochs and revisions: numbers are exact and unbounded.
- Text formats of timestamps, numbers and JSON: equal text stands for equal values; rows with unreadable numbers, which make a query fail, do not occur.
- The order of the trades that `get_user_trades` returns and of the groups that `get_today_pnl` lists: the results are maps.
- FillPages.ResumedCallsComplete: the calls are those of one order on a kept slot, one after another; interleaved calls are covered by the safety theorems of `FillCalls`.
- FillSlots.Slots.FindVictim: which of several equally old entries is evicted is left open, as it is in the code.
- FillCalls.OvertakingIsBounded: an order counts as attended while it is polled within the lease and its symbol is not cleared; progress also needs the exchange to answer, which is not modelled.
- SharedCache.RetriesAreBounded: `fetches` counts bulk and critical requests; a fallback request of `PositionCache::get` is one more per pass and is not counted.
- SharedCache.LoadsAreFresh: whether a snapshot is still fresh and whether a failure still cools down are free choices of each step, so the theorem holds for every clock; that a snapshot is younger than its maximum age is not stated.
- The HTTP error that `PositionCache::get` reports for an ambiguous position is part of the returned value.
- History.ClearRaisesRevision: revisions live in one process and start again in the next; a read is compared with revisions of its own process only, as in the code, and `History.StaleVerificationChangesNothing` needs no such limit.
- History.PairOpeningsSurvive: when two live trades of one order share their timestamp the code does not fix which one answers; the model allows either.
- Scoped and total grid statistics, managed orders, pair intents and account snapshots that the same transactions touch: easy members.
- Evidence.QueriesAreDeduplicated: stated for runs from an empty log in which no other call reuses the queries' ids or batches, which is how callers make them.
- Evidence.LatestSnapshotIsLastObserved: snapshots are saved whole, under ids and a batch of their own; a retried older snapshot is covered by `Evidence.StoredRowsAddNothing`.
- Evidence.EvidenceLog.Save: the rows of identity observations that the same transaction saves first are left out; they are in a table of their own, and a failure among them is a transaction that did not happen.
- Terminal disagreements, and deleting evidence groups: easy members.
- PaperStore.CacheAgreesWithRows: the symbols with paper history are a set that only grows, which is what clears preserve (frontiers are kept for every cleared scope).
- Lifecycle.EngineStop.StopEngine: times are those at which the engine would act; an engine that is aborted is taken to end.
- Shutdown.ShutdownLeavesNothingRunning: the shutdown begins, as in `main`, when the running command has ended and the early shutdown has returned; that every wait ends is left to the deadlines; a saved pause stands for the status row, which the commit of a recovery may later mark as recoverable.
- Shutdown.StopsAreAskedOnce: the membership lock, database work and exchange checks of an add or removal are collapsed into its outcome; deadlines are those of `Lifecycle`.
- SubmissionGate.SubmissionsUseSavedSettings: a paused engine is not resumed, and pausing is the request, not the engine's obedience to it.
- SubmissionGate.NoOrdersDuringUpdate: an engine may also decline to submit for other reasons (shutdown, a pending cancel, the position limit); the commit to the limit is one step with the save that precedes it; that in-flight submissions end is left to their deadlines.
- GlobalConfig.Settings.ApplyGlobalConfig: the write guards are in `SubmissionGate`, which proves that the guarded, interleaved update ends as this one does.
- GlobalConfig.UpdateIsAllOrNothing: an engine's acknowledgement is taken to mean that the settings are installed, and settings are compared by value, so colliding version hashes do not occur.
- Equality of saved and running pair sets after a failed add: the code saves the pair before it prepares the engine, so it does not hold.
- Configuration validation, payload patching and migrations of old JSON and of test-network rows: single-branch facts.
