# EtherWorldCup observer, modelled in Dafny

The observer is a daemon for a World Cup betting contract. It watches the contract's events on an
Ethereum node and mirrors matches and bets into two places: a Redis cache of
counters and timestamps, and a durable Postgres store. This project models its core:
- `src/observer.js`:
  - the cache key scheme;
  - seeding the default keys and reloading the watermarks once at start;
  - the watermark guard on every bet write;
  - the match, bet-placed, bet-cancelled and bet-claimed event handlers, which buffer events until the past history has been replayed;
  - replaying that history (`seedBets`, `seedMatches`, `seedAll`);
  - the `finishedSyncingHandler` that flushes what was buffered;
  - the match-cache refresh and its score string;
  - the timers: `doLater`, `cancelAllLaters`, `scheduleMatchUpdate` and the auto-updater.
- `src/lib/web3/broker.js`:
  - `parseMatch` and `parseBetPlacedEvent`;
  - the reconnect counter and backoff;
  - the listener fields and `resetListeners`;
  - the module-level instance counter.

## Modules

- **Text:** the decimal rendering of numbers, what `parseInt` reads from a string, and lower-casing.
- **Keys:**
  - the datatype of cache keys and the names they are stored under;
  - `getRedisMatchKeys`, `getRedisUserkeys`;
  - the `<match>:<bet>` member of a user's bet-id set;
  - the time helpers;
  - the `home-away` score string.
- **Store:** the cache as a map, with the commands the observer issues. A transaction is taken to be all-or-nothing: that is a design assumption of the model (see Left out). Reading a watermark gives a block, NaN, or a read error.
- **Records:** `parseMatch` over the two ABI tuples of `getFullMatchDetails`, and `parseBetPlacedEvent`.
- **Cache:** each cache write as a pure function of the old cache:
  - seeding the defaults;
  - the guarded placed/cancelled/claimed updates;
  - a match family's seed and the refresh;
  - the two timestamp helpers.
- **Schedule:** the pending timers as a sequence and the coalescing set of `scheduleMatchUpdate`. Two invariants: at most one refresh per id (`Coalesced`), and refreshes only for marked ids (`Coherent`).
- **Connection:** the `Broker` class (reconnect counter, stored listeners, subscriptions) and the instance counter.
- **Sync:**
  - what `seedBets` chooses and replays;
  - the functions that specify `finishedSyncingHandler`'s five steps (`FlushCreates` … `FlushClaims`, `SyncSpec`) and their lemmas.
- **Observer:** the process as one class. Each method is proved equal to the function that specifies it.

## How the model is built

The model is sequential. Every answer from outside is a parameter of the method that receives it:
- a chain read: `Option`, with `None` when it throws;
- a save of the durable store: `bool`;
- the football feed reply;
- the clock, `now`.

A JavaScript `await` that can throw becomes a branch on that parameter. The handlers' promise chains run to completion in program order.

`Promise.all` over a list is the sequential fold of its elements. This matters for `seedBets`, where the per-event writes are not awaited: the model applies them in log order.

The amounts are integers in wei. `weiToEth` and `incrbyfloat` would make them decimal ether (see Left out).

## Behaviour kept as the code has it

- **The bet guard compares with `<`.** A bet is written when its block is at or above the watermark, so an event replayed at the watermark block is counted a second time: `Cache.ReplayAtWatermarkCountsTwice` proves the contract totals then rise twice. A NaN watermark (the key is missing) never skips.
- **The cancelled watermark.** `finishedSyncingHandler` writes the cancelled watermark from the pending *placed* block (`src/observer.js:896`): `Sync.SyncFinishedCounts` states `lastBetCancelledBlock == pendingLastBetPlacedBlock`.
- **The two timestamp helpers are swapped:** `updateMatchMetaTimestamp` sets `lastMatchBetUpdate` (key 8) and `updateMatchBettingTimestamp` sets `lastMatchMetaUpdate` (key 7).
- **The auto-updater is handed a match id.** `finishedSyncingHandler` calls `autoUpdateMatchUntilEnd(match.Id)` with an id, not a match. The delay is then NaN, so the timer fires at once and, having no start time, never re-arms. The model gives this its own job, `AutoUpdateOfId`: it does nothing and is not rescheduled.
- **A give-up that never fires.** On the fifth rejection the broker's error handler calls `reject(e)` with an `e` that is not in scope. That throws before the reconnect, so the fifth drop stops reconnecting without rejecting.
- **The backoff lags one drop behind.** The reconnect timer is armed with the backoff left by the previous drop: 0, 0, 1200, 2400, … ms (`Connection.DropDelays`).
- **`cancelAllLaters` strands marks.** It clears the timers but not `matchUpdateSchedule`, so a match marked before a reconnect never gets another refresh (`Schedule.CancelAllStrandsMarks`).
- **Listeners are lost on reconnect.** A reconnect builds a new contract object, so the subscriptions disappear. `resetListeners` would register each stored listener again, once — or the do-nothing default where none was stored (`Connection.ReplayExactlyOnce`). Nothing calls it.

## Model

| member | source | states |
|---|---|---|
| Text.NatToString | src/lib/web3/broker.js:230 | the decimal numeral of a number is non-empty, made of digits only, and one digit long exactly when the number is below 10 |
| Text.ParseInt | src/lib/web3/broker.js:226-234 | `parseInt` yields NaN exactly when the string is empty or does not start with a digit |
| Text.ParseIntOfNatToString | src/lib/web3/broker.js:230 | reading back a rendered number gives the number: the decision string parses to the outcome |
| Text.ParseIntOfNatToStringThen | src/observer.js:73-86 | `parseInt` of a rendered number followed by a non-digit stops at the number, as when an id is read from `<id>:<field>` |
| Text.NatToStringInjective | src/observer.js:559 | distinct numbers render as distinct strings |
| Text.ToLower | src/lib/web3/broker.js:228 | lower-casing turns each capital letter into its own small letter, changes no other character, keeps the length and leaves no capital letter |
| Text.ToLowerIdempotent | src/observer.js:553 | lower-casing the already lower-cased bet address again changes nothing, so the user keys are those of the parsed address |
| Keys.MatchKeys | src/observer.js:73-86 | a match has nine keys; key i is field i of that match, named `match:<id>:` followed by the i-th field name in the fixed order |
| Keys.UserKeys | src/observer.js:146-152 | a user has two keys, named `user:<address>:totalBet` and `user:<address>:betIds` |
| Keys.MatchKeyNamesItsMatch | src/observer.js:73-86 | every match key's name starts with `match:` and the match id can be parsed back from it |
| Keys.MatchKeyNamesInjective | src/observer.js:73-86 | two match keys with the same name belong to the same match and field |
| Keys.UserKeyNamesInjective | src/observer.js:146-152 | two user keys with the same name are the same key of the same address |
| Keys.KeyNameInjective | src/observer.js:21-152 | no two different keys of the scheme (global, match or user) are stored under the same name |
| Keys.BetMemberInjective | src/observer.js:559 | the member `<match>:<bet>` determines both the match id and the bet id |
| Keys.Minutes | src/observer.js:479-481 | `minutes(n)` is 60 times `seconds(n)` |
| Keys.Hours | src/observer.js:475-477 | `hours(n)` is 60 times `minutes(n)` |
| Keys.ScoreStringRoundTrip | src/observer.js:431-451 | the score string determines both goal counts, with a missing count read as 0 |
| Store.Exec | src/observer.js:554-561 | a command fails exactly when it is a counter or set command and its key holds a value of the other kind (`set` never fails). When it succeeds it adds its key and changes only that key: set stores the value, incr adds one, incrby adds the amount, sadd adds the member |
| Store.Transaction | src/observer.js:554-561 | a transaction that goes through adds exactly the keys it names and leaves every other key as it was |
| Store.SetsSucceed | src/observer.js:580-583 | a transaction made only of `set` commands never fails |
| Store.ReadWatermark | src/observer.js:541-551 | reading a watermark gives NaN for a missing key, the block for a number, and a read error for a set |
| Records.ParseMatch | src/lib/web3/broker.js:203-223 | the parsed match carries the id it was asked for |
| Records.EncodeMatch | src/lib/web3/broker.js:203-223 | every match has a pair of tuples of the contract's shape encoding it |
| Records.ParseMatchRoundTrip | src/lib/web3/broker.js:203-223 | `parseMatch` reads every field of a match back from the position it occupies in the two tuples |
| Records.ParseMatchReadsOnlyItsFields | src/lib/web3/broker.js:203-223 | two tuple pairs that agree on every field `parseMatch` reads give the same match, and the fixture ids matter only through `parseInt` |
| Records.ParseBetPlacedEvent | src/lib/web3/broker.js:225-236 | the bet has the event's ids, block and amount, and the lower-cased better as its address. Its decision is the outcome's decimal form, which reads back as the outcome, and it is neither cancelled nor claimed |
| Cache.DistinctTransaction | src/observer.js:554-561 | a transaction over distinct keys goes through exactly when no command fails on the old cache, and then each key takes the value its command computes from the old cache |
| Cache.SeedDefaults | src/observer.js:154-172 | seeding adds exactly the default keys and changes no key outside them |
| Cache.SeedKeepsExisting | src/observer.js:156-161 | a key that already exists keeps its value through seeding |
| Cache.SeedMakesAllExist | src/observer.js:154-172 | after seeding, every default key exists |
| Cache.SeedFillsMissing | src/observer.js:158-161 | a default key that did not exist is given its default value |
| Cache.SeedIdempotent | src/observer.js:154-172 | seeding twice gives the same cache as seeding once |
| Cache.SeedOfExisting | src/observer.js:154-172 | seeding a cache in which every default key exists changes nothing |
| Cache.DefaultsKeySet | src/observer.js:28-34 | the defaults name exactly the six global keys |
| Cache.SeedFreshCache | src/observer.js:28-34 | on an empty cache, seeding sets all three watermarks to the start block and all three contract counters to 0 |
| Cache.PlacedBetTransaction | src/observer.js:554-561 | the placed-bet transaction goes through exactly when the counters and the bet-id set hold values of the right type, and then all six effects take place |
| Cache.PlacedBetStep | src/observer.js:537-562 | a set-typed watermark makes the update throw. It is skipped exactly when `block < watermark` and it is not forced. It is applied exactly when it neither throws nor is skipped and the transaction can go through |
| Cache.PlacedBetApplied | src/observer.js:549-561 | an applied placed-bet update has all six effects of the transaction on the old cache |
| Cache.PlacedBetKeepsKey | src/observer.js:537-562 | a placed-bet update, whether applied, skipped or failed, leaves every key outside its six as it was, present or absent |
| Cache.TypedCountersPlace | src/observer.js:554-561 | on counters, totals and bet-id sets of the right kind the placed-bet transaction can go through, and an applied one keeps them of the right kind |
| Cache.TypedStepCounts | src/observer.js:537-562 | on counters of the right kind, an unforced update at or above a numeric watermark is applied: one more bet, its amount on the total, the watermark at its block |
| Cache.PlacedBetCounts | src/observer.js:554-561 | an applied placed bet raises the bet count by one and the contract total by its amount. It adds its member to the user's bet-id set and moves the watermark to its block |
| Cache.ReplayAtWatermarkCountsTwice | src/observer.js:549-551 | the same bet replayed at the block it left as watermark is applied again: the contract counters rise twice while the user's bet-id set does not grow |
| Cache.StalePlacedBetSkipped | src/observer.js:549-551 | an unforced event from below the watermark leaves the cache unchanged |
| Cache.PlacedWatermarkMonotone | src/observer.js:549-555 | an unforced placed-bet update never moves a numeric watermark backwards |
| Cache.MarkBetTransaction | src/observer.js:577-583 | the cancel or claim transaction always goes through. It sets the stream's watermark to the block and the match's `lastMatchBetUpdate` to now, and changes nothing else |
| Cache.MarkBetStep | src/observer.js:564-606 | a cancel or claim update throws exactly on a set-typed watermark, and is skipped exactly when `block < watermark` and it is not forced |
| Cache.MarkBetApplied | src/observer.js:576-605 | an applied cancel or claim writes exactly the watermark and the match's bet timestamp |
| Cache.MarkBetKeepsTotals | src/observer.js:576-605 | cancels and claims never change the contract counters, the user totals or the bet-id sets |
| Cache.WriteKeys | src/observer.js:129-144 | writing distinct keys in one `set` transaction gives each key its value, keeps every other key's value and adds no key but these |
| Cache.SeedMatchKeys | src/observer.js:129-144 | seeding a match family sets each of its nine keys to its value; no other key appears or changes |
| Cache.WriteMatchCache | src/observer.js:449-461 | the refresh writes the first eight keys of the family. It leaves `lastMatchBetUpdate` and every other key unchanged and adds no key but those eight |
| Cache.MatchCacheScore | src/observer.js:431-451 | the score key holds a `home-away` string from which both goal counts (missing ones as 0) can be read back |
| Cache.Refresh | src/observer.js:397-469 | the refresh returns the match exactly when the chain read, the durable save and the fixture call all succeed. It then writes that parsed match's family, and otherwise leaves the cache as it was |
| Cache.MatchMetaTimestamp | src/observer.js:104-110 | the meta-timestamp helper sets key 8, whose name ends in `lastMatchBetUpdate`, to now |
| Cache.MatchBettingTimestamp | src/observer.js:112-118 | the betting-timestamp helper sets key 7, whose name ends in `lastMatchMetaUpdate`, to now |
| Schedule.InitialDelay | src/observer.js:500-503 | the first run's delay is never negative and falls due at ten minutes before kick-off, or at once when that moment has passed |
| Schedule.PollRunsBounded | src/observer.js:513-518 | a match is polled at most 51 times: from ten minutes before kick-off, every five minutes, until four hours after kick-off |
| Schedule.Rearm | src/observer.js:516-518 | a run re-arms exactly one five-minute timer when the match is running and undecided, and none otherwise |
| Schedule.RequestCount | src/observer.js:524-535 | a request adds one refresh timer for its match exactly when the match was not marked, and none for any other match |
| Schedule.RequestKeepsCoalesced | src/observer.js:524-535 | requests keep at most one pending refresh per match |
| Schedule.RequestKeepsCoherent | src/observer.js:524-535 | requests keep every pending refresh on a marked match and every marked match with its refresh |
| Schedule.RequestKeeps | src/observer.js:524-535 | a request preserves both scheduling invariants |
| Schedule.RequestCoalesces | src/observer.js:526-528 | a second request for a marked match changes nothing |
| Schedule.FireRefreshKeeps | src/observer.js:531-534 | firing a refresh and unmarking its match preserves both scheduling invariants |
| Schedule.FireOtherKeeps | src/observer.js:504-518 | firing an auto-update, with its re-arm, changes no match's number of pending refreshes |
| Schedule.AppendOtherKeeps | src/observer.js:487-490 | arming timers that are not refreshes preserves both invariants and every refresh count |
| Schedule.CancelAllStrandsMarks | src/observer.js:492-494 | after clearing every timer, the timer state satisfies the coherence invariant only when no match is marked. A request for a marked match then arms nothing |
| Connection.Retried | src/lib/web3/broker.js:40-42 | a retry counts one rejection more and sets the backoff to 1200 ms times the rejections counted before it |
| Connection.AfterRetriesClosedForm | src/lib/web3/broker.js:30-49 | after k consecutive retries there are k rejections, a backoff of 1200·(k−1) ms (0 for k = 0), and the broker gives up exactly from the fifth |
| Connection.DropDelays | src/lib/web3/broker.js:40-62 | the k-th drop is retried after the backoff of drop k−1 (0 for the first two), and only the fifth and later drops give up |
| Connection.Replay | src/lib/web3/broker.js:186-193 | re-registration subscribes the six event kinds in order, each with its stored listener or the default |
| Connection.Filled | src/lib/web3/broker.js:186-193 | after re-registration every event kind has a stored listener: the old one, or the default where none was stored |
| Connection.ReplayExactlyOnce | src/lib/web3/broker.js:186-193 | re-registration subscribes each event kind exactly once, and doing it a second time subscribes the same listeners |
| Connection.Broker.constructor | src/lib/web3/broker.js:9-17 | a new broker has its instance number, no rejection, no contract object, no listener and no subscription |
| Connection.Broker.OnConnect | src/lib/web3/broker.js:30-38 | a connect resets the counter and builds a new contract object with no subscription |
| Connection.Broker.OnDrop | src/lib/web3/broker.js:55-62 | a drop arms the retry with the current backoff |
| Connection.Broker.OnRetry | src/lib/web3/broker.js:40-52 | a retry advances the counter and reconnects exactly when the broker does not give up |
| Connection.Broker.AddListener | src/lib/web3/broker.js:114-170 | adding a listener stores it, and subscribes it exactly when a contract object exists |
| Connection.Broker.ResetListeners | src/lib/web3/broker.js:186-193 | with a contract object, every stored listener (or the default) is subscribed once in order. Without one, the first call throws after storing only the match-created listener |
| Connection.BrokerRegistry.constructor | src/lib/web3/broker.js:5 | the instance counter starts at 0 |
| Connection.BrokerRegistry.NewBroker | src/lib/web3/broker.js:9-16 | each new broker takes the next instance number, so the numbers issued are 0, 1, 2, … and distinct |
| Sync.AbovePlaced | src/observer.js:770 | the filter keeps exactly the placed events above the watermark |
| Sync.AboveRefs | src/observer.js:790 | the filter keeps exactly the cancel or claim events above the watermark |
| Sync.ChosenPlaced | src/observer.js:765-771 | events are replayed exactly when the log's last block is above a numeric watermark, and only events above it |
| Sync.ChosenRefs | src/observer.js:787-799 | cancels or claims are replayed exactly when the log's last block is above a numeric watermark, and only those above it |
| Sync.AbovePlacedAscending | src/observer.js:770 | filtering a log in block order keeps it in block order |
| Sync.ParseAll | src/observer.js:771 | each replayed event becomes its parsed bet, in order |
| Sync.RefsOf | src/observer.js:793-799 | each replayed cancel or claim becomes its `[match, bet]` pair, in order |
| Sync.AscendingReplayNeverSkips | src/observer.js:776 | replaying, in block order, events at or above a numeric watermark never skips one |
| Sync.SeededPlacedNeverSkipped | src/observer.js:765-776 | replaying the chosen part of a log in block order never skips a bet |
| Sync.ReplaySeededKeepsKey | src/observer.js:776 | replaying past placed bets leaves the cancelled and claimed watermarks and the total won as they were |
| Sync.AscendingReplayCountsAll | src/observer.js:776 | on counters of the right kind, replaying in block order from at or below the first block counts every event: the bet count grows by their number, the total by their amounts |
| Sync.SeededPlacedCountsAll | src/observer.js:765-776 | on counters of the right kind, the chosen part of a log in block order is counted in full |
| Sync.ReplayMarkedKeepsKey | src/observer.js:803-830 | replaying cancels or claims leaves every key outside the stream's own watermark and the match families as it was |
| Sync.ReplayMarkedKeepsTotals | src/observer.js:803-830 | replaying cancels or claims never changes the bet counters, user totals or bet-id sets |
| Sync.ForcedReplayCountsAll | src/observer.js:886-888 | a forced replay of buffered bets that goes through counts every one of them. It adds their amounts to the total and leaves the placed watermark at the given block |
| Sync.ReplayForcedKeepsKey | src/observer.js:886-888 | the forced replay, however it ends, leaves the cancelled and claimed watermarks and the total won as they were |
| Sync.ParseMatches | src/observer.js:358-374 | seeding parses match i from the i-th detail pair and gives it id i |
| Sync.SeedFamiliesKeepsOtherKeys | src/observer.js:386 | seeding match families makes no key outside them appear, disappear or change |
| Sync.TouchMetaAllKeepsOtherKeys | src/observer.js:881 | touching the matches' timestamps makes no key outside the match families appear, disappear or change |
| Sync.AutoTimers | src/observer.js:394 | seeding arms one auto-update per match, due at its initial delay |
| Sync.IdTimers | src/observer.js:868-872 | the sync flush arms for each created match an auto-update given only its id, due now |
| Sync.SeedBetsSpec | src/observer.js:693-840 | whatever `seedBets` queues for a stream comes from that stream's log, read with the watermark as found, and only when that log was fetched and the watermark was readable |
| Sync.SeedBetsFailedSaveWritesNothingLater | src/observer.js:693-840 | a failed watermark read or log fetch leaves the cache as it was and queues nothing. A failed placed save leaves the cache as it was; a failed cancel save leaves the cancelled and claimed watermarks, and a failed claim save the claimed watermark, as they were |
| Sync.SeedBetsCountsEveryPlacedBet | src/observer.js:693-840 | with the placed log in block order, readable watermarks, counters of the right kind and every save going through, `seedBets` finishes and the bet count and total grow by exactly the bets it queued |
| Sync.SeedBetsQueuesOnlyAbove | src/observer.js:765-776 | when the placed stream is replayed, every logged event above the watermark is queued, and only such events are |
| Sync.FlushCreates | src/observer.js:864-874 | the creation step empties the creation buffer and touches no bet buffer, update buffer or pending placed/claimed block |
| Sync.FlushUpdates | src/observer.js:877-882 | the update step touches no timer, bet buffer, creation buffer or pending placed/claimed block |
| Sync.FlushBets | src/observer.js:886-889 | the placed-bet step touches no timer, match queue, other buffer or pending placed/claimed block |
| Sync.FlushCancels | src/observer.js:894-897 | the cancel step touches no timer, match queue, other buffer or pending placed/claimed block |
| Sync.FlushClaims | src/observer.js:900-903 | the claim step touches no timer, match queue, other buffer or pending placed/claimed block |
| Sync.SyncSpec | src/observer.js:857-909 | the handler gets past each step exactly when that step's save and every earlier step succeed. The placed-bet step goes through exactly when, besides, the forced replay on the cache steps 1 and 2 leave has no failed update |
| Sync.SyncKeepsUnreachedWatermarks | src/observer.js:857-909 | if step 4 is not reached the cancelled watermark is as it was, and if step 5 is not reached the claimed watermark is as it was |
| Sync.FirstStepsKeepWatermark | src/observer.js:864-889 | steps 1 to 3, however far they get, leave the cancelled and claimed watermarks and the total won as they were |
| Sync.SyncLosesNoMatch | src/observer.js:864-882 | however the saves go, every buffered match is either queued for the durable store or still buffered |
| Sync.SyncLosesNoBet | src/observer.js:885-903 | however the saves go, every buffered bet, cancel and claim is queued or still buffered, and a buffer is emptied exactly when its step is reached |
| Sync.SyncFinishedDrainsAll | src/observer.js:857-909 | a completed sync empties all five buffers into the durable queues |
| Sync.SyncFinishedCounts | src/observer.js:885-903 | a completed sync counts every buffered bet, sets the cancelled watermark to the last placed block and the claimed watermark to the last claimed block |
| Observer.Observer.constructor | src/observer.js:281-289 | the observer starts unsynced, with empty buffers and queues, zero pending blocks and no timer |
| Observer.Observer.SeedRedisKeys | src/observer.js:154-172 | the cache becomes the seeding of the six defaults at the start block |
| Observer.Observer.SeedEach | src/observer.js:156-171 | the loop over the defaults seeds them in order |
| Observer.Observer.SetLastBlocks | src/observer.js:174-206 | the three pending blocks are read from the watermarks in order, and the first read error stops the rest |
| Observer.Observer.SetPlacedBetRedisKeys | src/observer.js:537-562 | the cache is updated as the guarded placed-bet step says |
| Observer.Observer.SetMarkedBetRedisKeys | src/observer.js:564-606 | the cache is updated as the guarded cancel or claim step says |
| Observer.Observer.ScheduleMatchUpdate | src/observer.js:524-535 | a match's refresh is requested once, coalescing later requests while it is marked, and the scheduling invariants are kept |
| Observer.Observer.AutoUpdateMatchUntilEnd | src/observer.js:499-522 | the first run is armed at ten minutes before kick-off, or now if that has passed |
| Observer.Observer.AutoUpdateMatchUntilEndOfId | src/observer.js:499-522 | given a bare id, the auto-updater arms one run due now |
| Observer.Observer.UpdateMatchCache | src/observer.js:397-469 | the match is queued for the durable store once read from the chain, and the cache is refreshed as the refresh function says |
| Observer.Observer.FireTimer | src/observer.js:487-534 | a fired refresh updates the cache and unmarks its match. A fired auto-update refreshes and re-arms itself while the match runs. A run given only an id does nothing. Both invariants are kept |
| Observer.Observer.CancelAllLaters | src/observer.js:492-494 | every timer is cleared, and the marks are left as they were |
| Observer.Observer.SeedMatchFamilies | src/observer.js:386 | each match's family is seeded in order |
| Observer.Observer.AutoUpdateAll | src/observer.js:394 | one auto-update is armed per match |
| Observer.Observer.AutoUpdateAllOfId | src/observer.js:868-873 | one id-only auto-update is armed per created match |
| Observer.Observer.TouchMeta | src/observer.js:321-323 | each updated match has its timestamp touched through the meta helper |
| Observer.Observer.MatchEventHandler | src/observer.js:291-344 | without an event or match data nothing changes. Before the sync the match is buffered. After it, both buffers are flushed and a refresh of the match is requested in five seconds once the updates' save succeeds |
| Observer.Observer.FlushMatchCreates | src/observer.js:304-315 | created matches are queued, and after a successful save their families are seeded and their auto-updates armed |
| Observer.Observer.FlushMatchUpdates | src/observer.js:317-328 | updated matches are queued, and after a successful save their timestamps are touched and a refresh is requested |
| Observer.Observer.BetPlacedEventHandler | src/observer.js:608-634 | the pending block follows every event. Before the sync the bet is buffered. After it, the buffer is queued, a refresh is requested in three seconds, and after a successful save the guarded update is applied |
| Observer.Observer.BetCancelledEventHandler | src/observer.js:636-662 | the same as for placed bets, with the cancel's pair queued, a five-second refresh and the guarded cancel update |
| Observer.Observer.BetClaimedEventHandler | src/observer.js:664-691 | the same as for placed bets, with the claim's pair queued, a five-second refresh and the guarded claim update |
| Observer.Observer.ReplayPlacedEvents | src/observer.js:776 | the chosen placed events are applied in log order with the guard |
| Observer.Observer.ReplayMarkedEvents | src/observer.js:803 | the chosen cancel or claim events are applied in log order with the guard |
| Observer.Observer.SeedBets | src/observer.js:693-840 | the cache, the result and the three durable queues are exactly what the replay specification gives |
| Observer.Observer.SeedPlacedStream | src/observer.js:765-785 | the chosen placed events are queued, and replayed only after a successful save |
| Observer.Observer.SeedMarkedStream | src/observer.js:787-812 | the chosen cancels or claims are queued, and replayed only after a successful save |
| Observer.Observer.ReplayBufferedBets | src/observer.js:888 | the buffered bets are applied in order with the guard forced, at the pending placed block |
| Observer.Observer.FinishedSyncingHandler | src/observer.js:857-909 | the flag is set, the handler succeeds exactly when all five steps do, and the state afterwards is the one the step functions give |
| Observer.Observer.FlushCreatesOnSync | src/observer.js:864-874 | the creation step of the sync does what its step function says |
| Observer.Observer.SaveCreates | src/observer.js:867-873 | each created match's family is seeded and an id-only auto-update armed |
| Observer.Observer.FlushUpdatesOnSync | src/observer.js:877-882 | the update step of the sync does what its step function says |
| Observer.Observer.FlushBetsOnSync | src/observer.js:885-889 | the placed-bet step of the sync does what its step function says |
| Observer.Observer.FlushCancelsOnSync | src/observer.js:893-897 | the cancel step of the sync does what its step function says |
| Observer.Observer.FlushClaimsOnSync | src/observer.js:900-903 | the claim step of the sync does what its step function says |
| Observer.Observer.SeedMatches | src/observer.js:346-395 | matches are queued once read, and after a successful save their families are seeded and their auto-updates armed. It succeeds exactly when reads and save do |
| Observer.Observer.SeedAllAfterReconnect | src/observer.js:842-853 | after a reconnect all timers are replaced by the seeded matches' auto-updates, and the bets are replayed only when seeding the matches succeeded |

## Left out

- **The Ethereum node and the Web3 plumbing:**
  - providers, websocket events, the `getMatch`, `getNumMatches`, `getBet`, `getTeam`, `getMinimumBet` and `getCommissions` calls, and `getPast*Events`;
  - their answers are parameters of the model.
- **The cache client and the database:**
  - `src/lib/database/redis.js` is not part of this model; its commands are modelled on a map;
  - the Postgres client is not part of this model. Its queues are sequences and a save is a boolean answer.
- **Other outside services:**
  - the football feed client is not part of this model; its reply is a parameter;
  - the logger is not part of this model.
- **Start-up and process plumbing:**
  - configuration loading, the start-up promise chain's wiring, `main`;
  - `shutdown`, `panic` and the signal handlers (`src/observer.js:49-71`).
- **Floating point.** `weiToEth` and `incrbyfloat`. Amounts are kept as integers in wei, and the totals add exactly where the cache would add decimal ether.
- **Interleaving and real time.**
  - Real timers and the interleaving of concurrent promises are not modelled; timers are a sequence, and firing one is an explicit step.
  - Concurrent `Promise.all` branches run one after another.
  - Fire-and-forget writes in `seedBets` and in the handlers are applied at once, in order.
- **Unused helpers.** `seedTeams` and the team list, and `allTeams`, write only to Postgres. `seedRedisMatchKeys` and `updateMatchTimestamps` are never called.
- **Match events.** Only a creation is told apart from the rest, which is all the handler does.
- Observer.Observer.SetLastBlocks: `parseInt` of a missing or non-numeric watermark makes the pending block NaN. The model keeps the previous block instead, since blocks are integers here.
- Records.ParseBetPlacedEvent: event integers are natural numbers from the ABI decoder. `parseInt` of their decimal form gives them back (`Text.ParseIntOfNatToString`), so the model takes them directly.
- Records.ParseMatch: it requires the tuples to have the contract's ABI shape, which the decoder guarantees. An ill-shaped reply is not modelled.
- Sync.SeedBetsSpec: a failed `getPast*Events` call is modelled as a clean abort. As written, the promise names its reject callback `request`, so the `reject(err)` call throws inside the callback and the promise never settles.
- Store.Transaction: all-or-nothing is a design assumption. The cache client class in `src/lib/database/redis.js` defines no `transaction` method, so what the observer's `redis.transaction` calls do is not given by the source, and a Redis MULTI/EXEC block does not roll back the commands before one that fails with WRONGTYPE. Where a transaction could fail part-way (the placed-bet one on a wrong-typed counter or set), the model writes nothing instead.
- Cache.Refresh: the final cache transaction is taken to succeed. Its eight commands are `set`s, which cannot fail on type.
- Connection.Broker.OnDrop: the `disconnect` log call is left out. The retry is only armed; firing it is `OnRetry`.
