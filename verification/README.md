# TradingAgent-India: a verified model

This project models the parts of TradingAgent-India whose correctness is easy to get wrong, and proves what they keep.
Times are seconds in one zone, dates are day numbers (or year, month and day where the calendar matters), money is in
units of 0.0001. Engines that are not part of the model — strategies, option selection, research, the risk guard, the
paper ledger, fill simulation, costs, digests — are arbitrary functions or inputs, so a result holds whatever they do
unless it names what it asks of them.

| files | what they model |
|---|---|
| `ReplayRecords`, `ReplayProtocol`, `ReplaySafety`, `ReplayStore` | the durable replay store: several processes on one directory, each file action and each crash a step of its own |
| `HistoryRows`, `HistoryStore`, `HistoryFields`, `HistoryCoverage`, `HistoryFigures`, `HistoryGaps`, `HistoryCanonical` | the canonical historical store, its point-in-time queries, its coverage report and quality gate |
| `HistoryReload`, `HistoryRoundTrip` | dumping a store and loading it again |
| `HistoryExpiry`, `HistoryResolver`, `HistoryHull` | the expiry universe of a moment, the resolver, and when later contracts can change its answer |
| `CalendarDates`, `ExpiryCalendar`, `ExpiryClassifier` | the expiry calendar and the memoised classifier |
| `FeedFrames`, `FeedReconnect`, `OptionPair`, `OptionPairMemo`, `Subscriptions` | binary frames, the reconnect state machine, the option pair and the classifier behind it, the subscription plan |
| `LiveLoop`, `LiveLoopSafety`, `LiveLoopOrders` | the live paper-trading loop, what its runs keep, and what it buys and sells |
| `BacktestLedger`, `BacktestMetrics`, `BacktestPipeline`, `BacktestRunner`, `BacktestTrades` | the decisions of a backtest, its books and its figures, and which trades it makes |
| `BacktestPointInTime`, `BacktestIds`, `BacktestDatasets` | what a backtest may depend on: engines that agree up to a moment, alike up to ids, over a growing dataset |
| `WalkForward` | walk-forward windows |
| `YamlText`, `YamlScalar`, `YamlLiterals`, `YamlParser`, `YamlRoundTrip` | the configuration parser and a printer for it |
| `Basics`, `Ordering` | list functions and stable sorting |

Where the source changes things step by step the model is a class or a method with loops, proved equal to a function of
its inputs or of the old state; the properties are then lemmas about that function. `dafny verify dfyconfig.toml` checks
everything.

Some results say more, or something else, than the source's own comments.

- The expiry universe takes the hull of a group's sightings, so it is not point-in-time on its own: a contract first seen
  later can make a closed group selectable again. `HistoryHull.HullSelection` says exactly when, `HullLooksAhead` gives an
  input, and `SeenToExpiryIsSafe` gives the condition on the data under which it never happens.
- The weekly scan of the calendar stops a week after the month, and that is always enough: no assumption on runs of
  holidays is needed (`ExpiryCalendar.CalendarClassMeaning`).
- Completeness is rounded to four decimals before the quality gate compares it with one, so one missing quote in twenty
  thousand or more goes unflagged (`HistoryCoverage.GapsAreFlagged`), and such a dataset is approved as if it were
  complete (`HistoryGaps.OneGapGoesUnflagged`).
- The memo of the expiry classifier leaves the option type and the schedule out of its key, so it can return something
  that `_classify` would not: `ExpiryClassifier.MemoAgreesExactlyWhen` says exactly when, `MemoCanDisagree` gives an
  input.
  So the option pair can depend on the order of the instrument list (`OptionPairMemo.OrderCanMatter`), and
  `MemoIgnoresOrder` says when it does not.
- Backtest decisions are point-in-time up to their ids only: publishing digests rows of every date into the fingerprint,
  and snapshot, signal, candidate and decision ids come from it (`BacktestDatasets.IdsLookAhead`).
- A provider whose connects all fail before the subscription can be RUNNING and subscribed to nothing
  (`FeedReconnect.RunningOnNothing`).
- The configuration accepts a step of zero, for which the window splitter would not stop
  (`WalkForward.EndsExactlyWhen`), and empty or negative settings, for which it may raise an index error
  (`WalkForward.SplitWindows`).

## Model

| member | source | states |
|---|---|---|
| ReplayRecords.AtomicExtends | grow/campaign/replay.py:350-419 | every operation of the reference map only adds a row or settles an unsettled one; a refusal changes nothing; an answer is a stored row |
| ReplayRecords.AtomicRetry | grow/campaign/replay.py:350-419 | repeating an operation that returned a row changes nothing and returns the same row |
| ReplayRecords.AttachExactlyWhen | grow/campaign/replay.py:385-419 | an exit is attached exactly to a stored decision with an accepted fill, for a closed position, which is the one the fill names if it names one, and only when no exit or the same exit and P&L are there; each refusal says which of these fails |
| ReplayRecords.RecordExactlyWhen | grow/campaign/replay.py:339-383 | what reading, appending and recording a cycle come to, by whether the decision is stored and equal |
| ReplayProtocol.DecideIsAtomic | grow/campaign/replay.py:350-419 | what a lock holder decides from the row it re-read is the atomic operation on the disk of that moment |
| ReplayProtocol.StepKeeps | grow/campaign/replay.py:303-419 | every enabled step of any process (load, lock, read, write, remember, release, failure, crash) keeps the invariant on disk, history, locks, memories and answers |
| ReplaySafety.RunInvariant | grow/campaign/replay.py:303-419 | the invariant holds at every moment of every interleaving |
| ReplaySafety.RowsAreAppendOnly | grow/campaign/replay.py:350-419 | between any two moments no row is removed, non-exit fields never change, and exit and P&L are set at most once |
| ReplaySafety.ExitsMatchFills | grow/campaign/replay.py:385-419 | on every interleaving: every settled row whose fill names a position carries the exit of that position, if the first rows and the appended ones do |
| ReplaySafety.MemoryNeverLeads | grow/campaign/replay.py:325-348 | every remembered row is an earlier-or-equal version of the disk row, so the in-memory fallback of `get` never answers |
| ReplaySafety.MutualExclusion | grow/campaign/fs_lock.py:27-55 | at most one process is inside the critical section of a decision |
| ReplaySafety.SomeoneCanAdvance | grow/campaign/fs_lock.py:27-55 | while a process is busy some process can go on: no deadlock |
| ReplaySafety.EveryCallIsAtomic | grow/campaign/replay.py:303-419 | linearizability: the logged calls run one after another on the atomic map give the disk and every answer; a call that raised had no effect |
| ReplaySafety.EffectsFollowRealTime | grow/campaign/replay.py:303-419 | a call answered before another was made takes effect before it |
| ReplaySafety.AnswersNeverGoBack | grow/campaign/replay.py:339-348 | a later read of the same decision, by any process, returns the same or a later version |
| ReplaySafety.HistoryGrows | grow/campaign/replay.py:303-419 | effects, calls and answers are never withdrawn along a run |
| ReplayStore.TradeReplayStore.constructor | grow/campaign/replay.py:288-331 | opening a directory remembers exactly its rows |
| ReplayStore.TradeReplayStore.Get | grow/campaign/replay.py:339-348 | a read answers as the atomic map does and refreshes the memory |
| ReplayStore.TradeReplayStore.Append | grow/campaign/replay.py:350-364 | first writer wins; an identical row is accepted, a different one refused without effect |
| ReplayStore.TradeReplayStore.RecordCycle | grow/campaign/replay.py:366-383 | the first row of a decision stays, and every caller gets it |
| ReplayStore.TradeReplayStore.AttachExit | grow/campaign/replay.py:385-419 | the exit is attached once, refused for open, unknown, settled or mismatched positions |
| ReplayStore.TradeReplayStore.CollectLinks | grow/campaign/replay.py:497-501 | positions are linked to the last decision whose accepted fill names them |
| ReplayStore.TradeReplayStore.SyncExits | grow/campaign/replay.py:494-510 | a sync attaches the due exits in order and stops at the first refusal |
| ReplayStore.SyncSettles | grow/campaign/replay.py:494-510 | after a successful sync every closed linked position is on its decision row, and no other decision changed |
| ReplayStore.SyncIsIdempotent | grow/campaign/replay.py:494-510 | syncing again changes nothing and reports the same decisions |
| ReplayStore.LinksMeaning | grow/campaign/replay.py:497-501 | a position is linked exactly to the last stored decision whose accepted fill names it |
| ReplayStore.SyncOkExactlyWhen | grow/campaign/replay.py:494-510 | a sync succeeds exactly when no due position meets a row settled with other values and no two due positions give one decision different exits |
| HistoryStore.AddKeepsConsistent | grow/history/store.py:56-95 | no `add_*` call breaks a uniqueness, validity, version or reference rule |
| HistoryStore.AddAllKeepsConsistent | grow/history/store.py:56-95 | nor does any sequence of calls |
| HistoryStore.PublishedIsImmutable | grow/history/store.py:299-301 | no sequence of adds changes a published store |
| HistoryStore.BarsAtMeaning | grow/history/store.py:201-212 | `bars_at` lists exactly the bars that ended and were available by the moment, by timeframe and time |
| HistoryStore.SnapshotMeaning | grow/history/store.py:214-234 | a snapshot holds exactly the latest eligible quote of every live contract that has one |
| HistoryStore.NoLookAhead | grow/history/store.py:63-95 | adding any sequence of rows that belong to the future of T leaves `bars_at`, `contracts_at` and `snapshot_quotes` at T unchanged |
| HistoryStore.VisibleBarAppears | grow/history/store.py:201-212 | an accepted bar joins the answer exactly when it is visible |
| HistoryStore.VisibleContractAppears | grow/history/store.py:236-243 | an accepted contract joins the answer exactly when it is listed at the moment |
| HistoryStore.CandidateIsIdentified | grow/history/store.py:271-297 | a candidate resolves to the one listed contract of its identity, whatever provider id is asked for |
| HistoryFields.TakenExactlyWhen | grow/history/store.py:56-95 | a row is taken exactly when the store is not published, its fields satisfy the listed inequalities, its version is the dataset's, its contract is known and its key is free |
| HistoryFields.StoresAreSound | grow/history/quality.py:24-78 | in every store that adds can reach: prices positive, low and high around open and close, bid ≤ ask and nothing negative, no row known before its time, every quote of a stored contract |
| HistoryFields.BarsInFields | grow/history/store.py:201-212 | `bars_at` in the fields of the bars |
| HistoryFields.ContractsInFields | grow/history/store.py:236-243 | `contracts_at` in the fields of the contracts |
| HistoryFields.SnapshotInFields | grow/history/store.py:214-234 | `snapshot_quotes` in fields: of each contract listed at the moment the latest quote that was made while it was listed and was available |
| HistoryFields.FuturesForbidden | grow/history/universe.py:224-231 | every name that starts or ends with FUT is refused, in any case of letters |
| HistoryCoverage.CoverageIsExact | grow/history/store.py:135-192 | observed plus untruncated missing equals expected, and the reported list is its first twenty, or all of it if there are fewer |
| HistoryCoverage.SlotsMeaning | grow/history/store.py:144-162 | a slot is expected exactly for an open session, a cadence stamp within its hours and a contract listed then |
| HistoryFigures.SlotsInFields | grow/history/store.py:144-162 | what is expected, observed and missing, in the fields of sessions, contracts and quotes |
| HistoryFigures.RatioMeaning | grow/history/store.py:167-170 | a ratio is the quotient rounded to four decimals, ties to even |
| HistoryFigures.SessionsInFields | grow/history/store.py:136-138 | the session figures, in the fields of sessions and bars |
| HistoryCoverage.MissingDaysAre | grow/history/store.py:136-138 | missing sessions are exactly the open days without a bar, in date order |
| HistoryCoverage.RatioIsWhole | grow/history/store.py:167-170 | four-decimal completeness is 1 exactly when at most one in twenty thousand is missing |
| HistoryCoverage.GapsAreFlagged | grow/history/store.py:304-309 | OPTION_SNAPSHOT_GAPS is raised exactly when nothing was expected or more than one slot in twenty thousand is missing |
| HistoryCoverage.OneGapOfFewIsFlagged | grow/history/store.py:304-309 | with fewer than twenty thousand slots a single missing quote is always flagged |
| HistoryGaps.OneGapGoesUnflagged | grow/history/store.py:304-325 | for every number of slots a dataset of valid rows with exactly one missing: flagged exactly below twenty thousand slots, and approved without it from there on |
| HistoryCoverage.VerdictExactlyWhen | grow/history/store.py:304-325 | when a dataset is rejected and when it is approved without warnings, in terms of its rows |
| HistoryFigures.WarningsExactlyWhen | grow/history/store.py:304-325 | a gated dataset carries exactly the warnings that its rows earn, in the order of their ids |
| HistoryCoverage.GateIsIdempotent | grow/history/store.py:304-325 | gating gated meta data again changes nothing |
| HistoryCoverage.CoverageReordered | grow/history/store.py:135-192 | apart from the truncated list the report does not depend on insertion order |
| HistoryCanonical.CanonicalStore.AddSession | grow/history/store.py:56-61 | refuses in the order of the checks, else appends |
| HistoryCanonical.CanonicalStore.AddBar | grow/history/store.py:63-71 | the same for bars |
| HistoryCanonical.CanonicalStore.AddContract | grow/history/store.py:73-83 | the same for contracts, with the identity collision |
| HistoryCanonical.CanonicalStore.AddQuote | grow/history/store.py:85-95 | the same for quotes, with the reference to a contract |
| HistoryCanonical.CanonicalStore.BarsAt | grow/history/store.py:201-212 | the loop computes the query as of the moment |
| HistoryCanonical.CanonicalStore.ContractsAt | grow/history/store.py:236-243 | the listed contracts of an underlying |
| HistoryCanonical.CanonicalStore.SnapshotQuotes | grow/history/store.py:214-234 | the loop computes the snapshot |
| HistoryCanonical.CanonicalStore.Coverage | grow/history/store.py:135-192 | the nested counting loops and the slot index give the report |
| HistoryCanonical.CanonicalStore.Publish | grow/history/store.py:115-133 | gates the meta data against the coverage, stamps the digest and closes the store |
| HistoryCanonical.IndexQuotes | grow/history/store.py:147-151 | the slot index agrees with a linear scan of the quotes |
| HistoryReload.LoadPayload | grow/history/adapter.py:39-152 | the four loading loops rebuild and publish the store, or report the first refusal |
| HistoryRoundTrip.DumpDependsOnRows | grow/history/store.py:97-113 | the listings of a dump, and its coverage but for the truncated list, depend only on the set of rows |
| HistoryRoundTrip.DumpInOrder | grow/history/store.py:97-113 | a dump lists exactly the rows of the store: sessions by date, bars by symbol, timeframe and time, contracts by id, quotes by contract and time |
| HistoryRoundTrip.ReloadSucceeds | grow/history/adapter.py:79-152 | reloading the dump of any store never fails |
| HistoryRoundTrip.ReloadKeepsListings | grow/history/adapter.py:79-152 | a reloaded store dumps to the same listings and coverage figures |
| HistoryRoundTrip.ReloadRoundTrip | grow/history/adapter.py:39-152 | a published store comes back with the same meta data and quality verdict; only the zone name is normalised |
| HistoryExpiry.ExpiryRecords | grow/history/expiry.py:22-43 | the grouping loop yields one record per expiry and class |
| HistoryExpiry.RecordsMeaning | grow/history/expiry.py:22-43 | the records are exactly the hulls of the non-empty groups |
| HistoryFigures.RecordsInFields | grow/history/expiry.py:22-43 | a key has a record exactly when a contract has it, and the record spans from the first to the last sighting of its contracts |
| HistoryFigures.RecordsInOrder | grow/history/expiry.py:22-43 | one record for each key, by expiry and class |
| HistoryResolver.ResolveNearestExpiry | grow/history/resolver.py:74-129 | the sorting-out and picking loops compute the resolution, or the profile error |
| HistoryResolver.ChooseIsBest | grow/history/resolver.py:122-129 | the choice is the best eligible key: preferred class first, then the earliest expiry |
| HistoryResolver.EveryRecordIsAccountedFor | grow/history/resolver.py:94-131 | every record is eligible or excluded with one reason, and nothing is selected exactly when none is eligible |
| HistoryResolver.ProfilesSelect | grow/history/resolver.py:54-129 | what each profile selects: the earliest tradable monthly, the earliest tradable weekly, or a monthly only when there is no tradable weekly; the other profiles are refused |
| HistoryResolver.ReasonsMeaning | grow/history/resolver.py:94-120 | a key is reported with a reason exactly when a record of it is not seen yet, no longer seen, expired, expiring today, or of a class that is not wanted |
| HistoryResolver.DiscoveredMeaning | grow/history/resolver.py:92 | the listing holds the keys of the underlying by expiry and class |
| HistoryHull.SelectedIsBest | grow/history/expiry.py:46-56 | the selection over the universe is the best key whose hull covers the moment |
| HistoryHull.HullSelection | grow/history/expiry.py:22-56 | contracts first seen later change the selection exactly when one joins a group that had closed and would win |
| HistoryHull.SeenToExpiryIsSafe | grow/history/resolver.py:94-129 | if every contract was seen up to its expiry and same-day is excluded, no later contract changes the selection |
| HistoryHull.NoLookAheadInSelection | grow/history/store.py:63-95 | under that condition no sequence of adds of future rows changes the selected expiry |
| HistoryHull.HullLooksAhead | grow/history/expiry.py:22-56 | a concrete input on which a later contract changes it |
| CalendarDates.OrdinalPrev | grow/live_data/expiry_class.py:134-151 | stepping one day back lowers the Gregorian ordinal, and so moves the weekday, by one |
| CalendarDates.OrdinalOrder | grow/live_data/expiry_class.py:65-70 | ordinals are in the order of year, month and day |
| CalendarDates.MondayIn2024 | grow/live_data/expiry_class.py:130-151 | 1 January 2024 is weekday 0; with the step of one day this fixes every weekday |
| CalendarDates.FirstDay | grow/live_data/expiry_class.py:134-151 | 1 January of year 1 is day 1; with the step of one day this fixes every ordinal |
| ExpiryCalendar.PreviousSession | grow/live_data/expiry_class.py:134-141 | the cursor loop finds the latest session of the last fourteen days |
| ExpiryCalendar.LastWeekday | grow/live_data/expiry_class.py:144-151 | the cursor loop finds the last such weekday of a month |
| ExpiryCalendar.Classify | grow/live_data/expiry_class.py:357-373 | the scans over neighbouring months and the weekly window compute the class |
| ExpiryCalendar.MonthlyInMonth | grow/live_data/expiry_class.py:375-396 | a monthly expiry lies in its own month |
| ExpiryCalendar.MonthlyDateMeaning | grow/live_data/expiry_class.py:375-396 | it is the session that the last monthly weekday of the month moves back to |
| ExpiryCalendar.CalendarClassMeaning | grow/live_data/expiry_class.py:357-423 | MONTHLY exactly for its own month's monthly date; WEEKLY exactly when not MONTHLY and some weekly weekday of a supported year, anywhere, moves back to it |
| ExpiryCalendar.PreviousSessionMeans | grow/live_data/expiry_class.py:134-141 | the session found is the latest day that is not a weekend or a holiday |
| ExpiryCalendar.SessionsOfAWeek | grow/live_data/expiry_class.py:130-132 | Monday to Friday are sessions unless they are holidays, Saturday and Sunday are not |
| ExpiryCalendar.Expiries2026 | grow/market/fo_calendar.py:20-43 | NIFTY with the exchange holidays of 2026: 27 January is MONTHLY, 20 January WEEKLY, 28 January neither, 30 March (the 31st is a holiday) MONTHLY, 31 March neither, 2 March WEEKLY |
| ExpiryClassifier.Classifier.Classify | grow/live_data/expiry_class.py:191-225 | a call returns the cached or the fresh classification and fills the cache |
| ExpiryClassifier.Classifier.Invalidate | grow/live_data/expiry_class.py:188-189 | empties the cache |
| ExpiryClassifier.ClassifyFresh | grow/live_data/expiry_class.py:234-355 | computes the classification from schedule, calendar and provider class |
| ExpiryClassifier.ClassifiedExactlyWhen | grow/live_data/expiry_class.py:234-355 | a class is given exactly when provider and calendar do not contradict each other and one of them says so |
| ExpiryClassifier.ScheduleForMeaning | grow/live_data/expiry_class.py:178-183 | the schedule that counts is the first of the upper-cased symbol whose from and to dates contain the day |
| ExpiryClassifier.RequestMeaning | grow/live_data/expiry_class.py:234-285 | when a request is for an option and what its provider claims, in the texts of the request |
| ExpiryClassifier.MemoReturnsFirst | grow/live_data/expiry_class.py:191-225 | every call returns the fresh answer of the first call with its key since the cache was emptied |
| ExpiryClassifier.MemoAgreesExactlyWhen | grow/live_data/expiry_class.py:191-355 | on every call sequence, a call returns what `_classify` gives exactly when it and the first call of its key are both options or both not, both under a schedule or both not, and have calendar verdicts that the provider class does not tell apart |
| ExpiryClassifier.MemoAgrees | grow/live_data/expiry_class.py:191-225 | if a provider symbol keeps its option type and schedule, the memo agrees on class, rule and diagnostic over every call sequence |
| ExpiryClassifier.MemoCanDisagree | grow/live_data/expiry_class.py:191-225 | a concrete configuration and two requests for which it does not: a weekly call, then the same symbol as something that is not an option |
| FeedFrames.SplitBinaryPackets | grow/live_data/kite_market.py:455-470 | the offset loop computes the split or the malformed-message error |
| FeedFrames.SplitEncode | grow/live_data/kite_market.py:455-470 | splitting an encoded frame gives the packets back, whatever trails it |
| FeedFrames.EncodeSplit | grow/live_data/kite_market.py:455-470 | a successful split re-encodes to a prefix of the frame |
| FeedFrames.SplitsExactlyWhen | grow/live_data/kite_market.py:455-470 | a frame splits exactly when it starts with the encoding of some packets |
| FeedFrames.FrameDecodes | grow/live_data/kite_market.py:473-510 | every packet of a frame that splits decodes, one tick each |
| FeedFrames.FieldsAreIndependent | grow/live_data/kite_market.py:473-506 | in a packet of any legal length each field has its own four bytes: writing them changes that field and no other |
| FeedFrames.OnlyFieldsMatter | grow/live_data/kite_market.py:473-506 | packets of one length that agree on these bytes decode alike |
| FeedFrames.LengthsMeaning | grow/live_data/kite_market.py:473-506 | the five lengths, the mode of each, which fields it lacks, and which byte tells indexes apart |
| FeedReconnect.Provider.ConnectWith | grow/live_data/kite_market.py:870-951 | a successful connect subscribes its tokens and resets the reconnect counters; one that fails at the subscription leaves its tokens for the reconnects; any other keeps both |
| FeedReconnect.Provider.Disconnect | grow/live_data/kite_market.py:953-958 | stops the provider |
| FeedReconnect.Provider.PollOnce | grow/live_data/kite_market.py:987-1042 | one poll, with its mutual recursion, terminates and computes the next state and reply |
| FeedReconnect.Provider.FeedError | grow/live_data/kite_market.py:1044-1060 | the branches of a feed error |
| FeedReconnect.Provider.Reconnect | grow/live_data/kite_market.py:1062-1111 | one bounded-backoff attempt |
| FeedReconnect.BoundedAndSpaced | grow/live_data/kite_market.py:1062-1111 | since the last successful connect at most max_attempts reconnects, attempt n+1 at least min(max_backoff, 2^n) seconds after attempt n |
| FeedReconnect.OneAttemptPerPoll | grow/live_data/kite_market.py:987-1111 | one poll makes at most one attempt |
| FeedReconnect.AttemptsExactlyWhen | grow/live_data/kite_market.py:1062-1111 | a degraded provider waits one backoff and attempts exactly at the first poll after it; a failed attempt adds the next wait |
| FeedReconnect.BackoffMeaning | grow/live_data/kite_market.py:1068-1091 | the waits start at one second and double up to the longest |
| FeedReconnect.SnapshotSetsFreshness | grow/live_data/kite_market.py:1199-1280 | however many reconnects a poll takes, its snapshot leaves the provider STALE exactly when the event is older than allowed, and RUNNING otherwise |
| FeedReconnect.SilenceKeepsOrStales | grow/live_data/kite_market.py:987-1042 | silence makes a provider STALE exactly when it was RUNNING and its last event is older than allowed |
| FeedReconnect.StaleMeansAged | grow/live_data/kite_market.py:987-1280 | on every run a STALE provider has had an event, and that is older than allowed |
| FeedReconnect.LivePoll | grow/live_data/kite_market.py:987-1060 | what a live provider makes of what it receives: only listed ticks are an event, a refused login stops it for good, any other failure degrades it, control frames leave it as it is |
| FeedReconnect.NoMoreAttempts | grow/live_data/kite_market.py:1062-1067 | on every run: once all attempts are used up none is made before the next successful connect, and a bounded provider that is down stays down, STOPPED after every poll |
| FeedReconnect.LiveMeansSubscribed | grow/live_data/kite_market.py:919-951 | on every run a bounded provider that is READY, RUNNING or STALE has exactly the tokens subscribed of the last connect that got as far as the subscription, across any number of reconnects |
| FeedReconnect.RunningOnNothing | grow/live_data/kite_market.py:1083-1111 | a concrete run that ends RUNNING with nothing subscribed: a first connect that fails on its catalogue, then the reconnect loop |
| FeedReconnect.StoppedStays | grow/live_data/kite_market.py:987-989 | a stopped provider stays as it is under any number of polls |
| FeedReconnect.PersistentLossStops | grow/live_data/kite_market.py:1062-1111 | a loss that no reconnect repairs uses up the attempts and ends in STOPPED |
| OptionPair.SelectOptionPair | grow/live_data/kite_market.py:405-438 | the loops over underlyings and strikes compute the selection |
| OptionPair.PreferredLiveExpiry | grow/live_data/kite_market.py:320-366 | the records of the live rows, resolved under the policy |
| OptionPair.PreferredIsBest | grow/live_data/kite_market.py:320-366 | the expiry is the earliest strictly future one of the preferred class |
| OptionPair.SelectedIsBestPair | grow/live_data/kite_market.py:405-438 | a CE and a PE of one underlying, expiry and strike; no two-sided strike is nearer to spot, ties go to the lower; the first underlying with such a pair; failure only when there is none |
| OptionPair.SelectionInFields | grow/live_data/kite_market.py:405-438 | the same in the fields of the instruments and of the policy: NIFTY before BANKNIFTY, earliest strictly future weekly or monthly, least distance to spot |
| OptionPair.SelectionIgnoresOrder | grow/live_data/kite_market.py:294-438 | for classes that are a function of the row, the selected contracts do not depend on the order or repetition of instruments |
| OptionPairMemo.SelectWithClassifier | grow/live_data/kite_market.py:294-438 | classifying the rows one by one through the memo and then selecting; every answer is the one the cache still gives at the end |
| OptionPairMemo.MemoIsInvisible | grow/live_data/kite_market.py:294-438 | when rows of one symbol and expiry share what their class depends on, the memo changes nothing of the selection |
| OptionPairMemo.MemoIgnoresOrder | grow/live_data/kite_market.py:294-438 | then the selection through the memo does not depend on the order or repetition of instruments |
| OptionPairMemo.OrderCanMatter | grow/live_data/kite_market.py:294-438 | a concrete list for which it does: after a namesake of another underlying the call is not tradable, before it the pair is found |
| LiveLoop.LivePaperLoop.RunOnce | grow/live_data/loop.py:167-352 | one cycle computes the next state from its inputs |
| LiveLoop.LivePaperLoop.OnSnapshot | grow/live_data/loop.py:272-352 | the branches of an event: repeated, rejected, stale, managed, traded |
| LiveLoop.LivePaperLoop.Manage | grow/live_data/loop.py:569-577 | exits are taken one by one, and a halt degrades the session |
| LiveLoop.LivePaperLoop.CloseOne | grow/live_data/loop.py:579-727 | one exit, with its aborts and the halt at the session close |
| LiveLoop.LivePaperLoop.EvaluateOne | grow/live_data/loop.py:354-560 | one entry: the lot lookup, the side, research, the duplicate checks, the entry price, the guard, the order and the registration, in source order |
| LiveLoop.LivePaperLoop.RegisterOpen | grow/paper/positions.py:251-299 | registers the position, or raises for exactly the faults the registry names |
| LiveLoopSafety.StepKeeps | grow/live_data/loop.py:154-352 | every start, stop and cycle keeps the books: fills and closes alternate and the open set holds exactly the unmatched fills; a position that is not closed has its contract in the open set, alone, and holds what its last fill bought; fills were clean; nothing is bought back on its own snapshot |
| LiveLoopSafety.FillsAndClosesAlternate | grow/live_data/loop.py:433-442 | on every run the fills and closes of a contract strictly alternate, starting with a fill, and each close sells the quantity of the fill before it |
| LiveLoopSafety.NoReentryOnTheSameSnapshot | grow/live_data/loop.py:683-693 | a contract sold on a snapshot is bought again only on a later one |
| LiveLoopSafety.NoFillWhenUnhealthy | grow/live_data/loop.py:562-567 | every fill found the session healthy, the snapshot timely and the loop not halted |
| LiveLoopSafety.NoFillAfterHalt | grow/live_data/loop.py:562-577 | a halt is final: no fill ever follows it |
| LiveLoopSafety.ClosedStaysClosed | grow/paper/positions.py:417-457 | no step reopens or forgets a closed position |
| LiveLoopSafety.RegisteringNeverRaises | grow/live_data/loop.py:404-526 | the checks before an order leave the registry nothing to raise for: every fill becomes an open position of its contract and quantity |
| LiveLoopSafety.EveryFillIsRegistered | grow/live_data/loop.py:505-526 | on every run the positions are the fills, one for one and in order, with contract and quantity |
| LiveLoopSafety.OpenIsHeld | grow/live_data/loop.py:433-526 | on every run a contract is open exactly when a position that is not closed holds it |
| LiveLoopOrders.EveryFillIsProper | grow/live_data/loop.py:354-526 | on every run each fill was left by a step with a new, valid, timely event on a session that was up and not halted, and buys a call for a bullish or a put for a bearish signal, at an ask that is quoted and not below the bid, lots × the lot the snapshot gives, wanted by research, guard and ledger |
| LiveLoopOrders.BuysWhatItCan | grow/live_data/loop.py:272-526 | progress, on every run: on such an event every target meeting these conditions is bought unless its contract is held or an earlier target is in its way |
| LiveLoopOrders.FirstEventBuys | grow/live_data/loop.py:154-526 | a fresh session that was started buys the first such target of its first event |
| LiveLoopOrders.OncePerUnderlying | grow/live_data/loop.py:354-372 | an underlying is bought at most once per event |
| LiveLoopOrders.LedgerFailureEndsTheCycle | grow/live_data/loop.py:505 | an order that the ledger fails ends the cycle: nothing after it is looked at |
| LiveLoopOrders.AfterSnapshot | grow/live_data/loop.py:562-727 | a timely event closes exactly the open positions whose exit goes through, halts exactly when one cannot be got rid of at the close, and leaves the session running unless halted |
| LiveLoopOrders.OtherCycles | grow/live_data/loop.py:167-352 | every other cycle buys and sells nothing; when it changes the health, and to what |
| LiveLoopOrders.ReadyMeansApproved | grow/live_data/loop.py:154-160 | on every run a READY session was started on an approved provider |
| LiveLoopOrders.StoppedTradesNothing | grow/live_data/loop.py:162-166 | after a stop nothing is bought or sold until the next start |
| BacktestLedger.Ledger.RecordTrade | grow/backtest/ledger.py:19-23 | appends the trade, its net result to cash and a point to the equity curve |
| BacktestLedger.Ledger.RecordDecision | grow/backtest/ledger.py:16-17 | appends the row |
| BacktestLedger.TradeKeepsBalance | grow/backtest/ledger.py:16-23 | a trade with its FILL row keeps the books balanced |
| BacktestMetrics.Drawdown | grow/backtest/metrics.py:9-15 | the one-pass running peak gives the deepest fall between any two points |
| BacktestMetrics.Calculate | grow/backtest/metrics.py:27-70 | counts, totals, wins and losses, rounded rates and averages, profit factor, drawdown and the counts by underlying and type are those of the ledger |
| BacktestMetrics.WinsLessLosses | grow/backtest/metrics.py:30-36 | what was won less what was lost is the net of all trades |
| BacktestMetrics.ProfitFactorMeaning | grow/backtest/metrics.py:36-41 | the profit factor times what was lost is what was won |
| BacktestMetrics.PayoffMeaning | grow/backtest/metrics.py:38-61 | the payoff is average win by average loss to within half a unit |
| BacktestMetrics.CountBy | grow/backtest/metrics.py:43-47 | the counting loop holds exactly the names that occur, with how often they do |
| BacktestMetrics.NetIsGrossMinusCost | grow/backtest/metrics.py:33-35 | reported net is reported gross minus reported cost |
| BacktestPipeline.PickedIsBest | grow/backtest/pipeline.py:27-31 | the picked signal comes first by confidence, strategy and id |
| BacktestPipeline.BindLot | grow/backtest/pipeline.py:54-71 | a bound lot is at least one, and nothing else of the candidate changes |
| BacktestPipeline.FindContract | grow/backtest/pipeline.py:34-43 | finds a row of the identity if the chain has one |
| BacktestPipeline.BoundLotIsCanonical | grow/backtest/pipeline.py:54-71 | on a historical dataset the lot is the listed contract's, whatever the candidate carried |
| BacktestPipeline.FindPathExit | grow/backtest/pipeline.py:74-89 | the scan of the bars computes the exit |
| BacktestPipeline.PathExitIsFirstHit | grow/backtest/pipeline.py:74-89 | the exit is the end of the first bar from the decision on that touches stop or target; both counts as stopped |
| BacktestPipeline.DecisionPipeline.Evaluate | grow/backtest/pipeline.py:124-214 | one decision, through all of its branches, logs its outcome |
| BacktestPipeline.DecisionPipeline.CloseOut | grow/backtest/pipeline.py:216-289 | the exit, the trade and its rows |
| BacktestPipeline.EvaluationLogsOnce | grow/backtest/pipeline.py:124-289 | exactly one row per evaluation, and a trade exactly when it is a FILL |
| BacktestPipeline.LaterBarsDoNotMatter | grow/backtest/pipeline.py:74-89 | bars listed after the first hit never change the exit |
| BacktestTrades.BullishExit | grow/backtest/pipeline.py:74-89 | the exit in prices: low > stop and high < target before it; low ≤ stop for a stop, high ≥ target for a target, both for an ambiguous one |
| BacktestTrades.ExitUpsideDown | grow/backtest/pipeline.py:74-89 | negating all prices and flipping the direction leaves the exit unchanged |
| BacktestTrades.ExitByTheSquareOff | grow/backtest/pipeline.py:228-236 | the path counts when it ends by the square-off, else the square-off does |
| BacktestTrades.PickedExactlyWhen | grow/backtest/pipeline.py:27-31 | the picked signal is the first that no other outranks |
| BacktestTrades.EntersExactlyWhen | grow/backtest/pipeline.py:124-214 | a point is entered exactly with data that does not look ahead, the foremost signal, a chain of the moment, a pick of the signal's side with the listed lot, approving research and a fill |
| BacktestTrades.TradeOfAnEntry | grow/backtest/pipeline.py:216-289 | what such an entry comes to: exit, price difference × lot × lots, less the cost |
| BacktestTrades.TradedMeansEntered | grow/backtest/pipeline.py:124-289 | every trade comes from such an entry |
| BacktestPointInTime.DecisionsUseThePast | grow/backtest/pipeline.py:124-214 | with market data and chains that agree up to the decision time, and candidates dated no later than their snapshot (as in grow/options/engine.py), a point is refused for the same reason or entered with the same signal, contract, lot and price |
| BacktestPointInTime.OutcomesUseTheDay | grow/backtest/pipeline.py:124-289 | with ones that agree up to the square-off, the whole outcome is the same, trade and row |
| BacktestPointInTime.RunsUseThePast | grow/backtest/runner.py:227-249 | and so is a whole run, when they agree up to its last square-off |
| BacktestIds.PicksAlike | grow/backtest/pipeline.py:27-31 | signals that differ in their ids only, no two of one strategy and confidence, give the same pick up to its ids |
| BacktestIds.DecisionsAlike | grow/backtest/pipeline.py:124-214 | with data that agrees up to ids and engines that use ids for naming only, the decision is the same up to ids |
| BacktestIds.RunsAlike | grow/backtest/runner.py:227-249 | and so are the decisions, trades, cash and equity curve of a run |
| BacktestDatasets.DecisionsIgnoreTheFuture | grow/history/bridge.py:56-255 | two published datasets, one with more rows about the future of the decision time, accepted or refused, and so with another fingerprint in every snapshot id: for engines that use ids for naming only, the same decision up to ids |
| BacktestDatasets.RunsIgnoreTheFuture | grow/history/bridge.py:56-255 | for such engines, the same for a whole run and rows about the future of its last square-off: decisions, trades, cash and equity curve agree up to ids |
| BacktestDatasets.IdsLookAhead | grow/history/store.py:115-133 | a concrete dataset and row of tomorrow for which the ids do differ |
| BacktestRunner.Run | grow/backtest/runner.py:227-249 | the session × ticker loop plays every point on a fresh ledger and reports it |
| BacktestRunner.CompletedRun | grow/backtest/runner.py:227-249 | one decision per session and ticker in order, so sessions × tickers of them; FILL rows = trades; cash = start + net = last equity point; net = gross − cost; coverage always complete |
| BacktestTrades.PointAt | grow/backtest/runner.py:227-249 | the points of a run are session by session and ticker by ticker, at eleven |
| BacktestTrades.LookAheadIsReported | grow/backtest/metrics.py:18-24 | a run in which some point was shown later data is reported as leaking |
| WalkForward.EndsExactlyWhen | grow/backtest/walkforward.py:47-74 | for all settings: the loop ends exactly when the step is not zero, the first window does not fit, or its lookup raises |
| WalkForward.LookFailsExactlyWhen | grow/backtest/walkforward.py:67-73 | without negative settings, the dates of a window that fits cannot be looked up exactly when its test part is empty and it ends with the sessions |
| WalkForward.SplitWindows | grow/backtest/walkforward.py:47-74 | for all settings with which it ends: it raises exactly when a window that fits cannot be looked up before one does not fit; else the dates of every window that fits, window k starting at k·step, floor((n − block)/step) + 1 of them for a positive step |
| WalkForward.EmbargoIsKept | grow/backtest/walkforward.py:47-74 | of every window the splitter reports: train, validate and test follow each other in time, exactly embargo sessions lie strictly between one part and the next, and each part spans exactly its number of sessions |
| WalkForward.TestsAreDisjoint | grow/backtest/walkforward.py:47-74 | no session in two test parts exactly when step ≥ test or there are fewer than two windows |
| WalkForward.RunTests | grow/backtest/walkforward.py:82-103 | tuning on the test windows is refused; else the combined figure sums one fresh run between the test dates of each window, and the three ablations run over the span of the tests |
| WalkForward.TestRunsItsSessions | grow/backtest/walkforward.py:96-97 | the run between the reported test dates of a window is a run over exactly the sessions of its test part |
| WalkForward.NoSessionTwice | grow/backtest/walkforward.py:96-98 | with step ≥ test no session enters it twice |
| Subscriptions.StrikeStep | grow/live_data/subscribe.py:12-18 | the loop computes the median gap |
| Subscriptions.StepIsAGap | grow/live_data/subscribe.py:12-18 | the step is a gap between neighbouring strikes, hence positive |
| Subscriptions.StepIsMedian | grow/live_data/subscribe.py:12-18 | at most half of the gaps are smaller than the step and more than half are not larger |
| Subscriptions.AtmIsNearest | grow/live_data/subscribe.py:21-24 | no multiple of the step is nearer to spot |
| Subscriptions.AtmMeaning | grow/live_data/subscribe.py:21-24 | it is a multiple of the step within half a step of spot, the even one on a tie |
| Subscriptions.PlanSubscriptions | grow/live_data/subscribe.py:27-87 | the collecting loops, the sort and the cap compute the plan |
| Subscriptions.PlanMeaning | grow/live_data/subscribe.py:76-87 | no duplicates, at most max_symbols and no fewer than possible, every index kept, an option left out only behind every kept one; failure exactly when the indexes do not fit |
| Subscriptions.RankedMeaning | grow/live_data/subscribe.py:52-75 | what is planned for: the first index row of each active underlying and the in-window options of its expiry |
| Subscriptions.RankedInFields | grow/live_data/subscribe.py:52-75 | the same in the fields of the catalogue, the distance in strike steps included |
| Subscriptions.ResubscribeReachesPlan | grow/live_data/subscribe.py:90-95 | dropping and adding turns any previous set into exactly the plan |
| YamlScalar.ScalarRoundTrip | grow/config.py:25-40 | a printed scalar reads back as itself |
| YamlLiterals.ScalarMeaning | grow/config.py:25-40 | which texts are booleans, null, quoted, whole numbers, fractions and plain strings |
| YamlLiterals.WholeExactlyWhen | grow/config.py:36-39 | `int` accepts exactly a sign or none and groups of digits joined by single underscores |
| YamlLiterals.FractionExactlyWhen | grow/config.py:36-38 | `float` accepts, of texts with a point, exactly a sign or none, such digits on at least one side of the point and an exponent or none |
| YamlLiterals.StripMeaning | grow/config.py:26 | stripping takes away exactly the white space at both ends |
| YamlParser.ParseSimpleYaml | grow/config.py:43-93 | the reader and the recursive block parser compute the tree or the error |
| YamlParser.ParseConsumesEverything | grow/config.py:55-93 | a successful parse has used every significant line |
| YamlParser.SignificantLinesDecide | grow/config.py:46-53 | any two texts with the same significant lines have the same result |
| YamlParser.CommentsDoNotMatter | grow/config.py:46-53 | an inserted blank or comment line, at any place and indent and with any line ends, never changes the result |
| YamlParser.InsignificantMeansBlank | grow/config.py:47-49 | a line is skipped exactly when everything before its comment sign is white space |
| YamlParser.ReadsExactlyWhenEven | grow/config.py:46-53 | the lines are read exactly when every significant one is indented by an even number of spaces |
| YamlParser.PutReplaces | grow/config.py:82-88 | a repeated key replaces its value and leaves the other keys |
| YamlRoundTrip.ParsePrinted | grow/config.py:43-93 | parsing a printed tree gives the tree |
| YamlRoundTrip.ParsePrintParse | grow/config.py:43-93 | every tree the parser returns can be printed, and reads back as itself |

## Left out

- File contents and JSON: a write replaces a file atomically, a decision id contains no `/`, and encoding followed by decoding is the identity. `atomic_write_json` is not part of this model.
- The two lock backends, their retries and the sixty-second deadline: one mutex per path whose acquisition may fail without effect, and whose release (unlocking and closing the lock file, grow/campaign/fs_lock.py:48-52) never raises. If it did, a call could raise after its effect.
- Digests and generated ids (fingerprints, resolution, session, position and snapshot ids) are opaque; results are about what is hashed. Where the dataset grows, backtests are compared up to ids, for engines that use ids for naming only and never emit two signals of one strategy and confidence for a snapshot (grow/strategies/engine.py, one per strategy name). A recorded decision, looked up by packet id, is not such an engine.
- Floating point: prices and results are whole multiples of 0.0001, subscription distances and their order are real, and ratios are rounded exactly with ties to even. A binary float next to a tie may round the other way.
- Time zones: every timestamp is in one zone, so the checks for naive timestamps and the conversion of the adapter are left out.
- YamlParser.ParseSimpleYaml: an odd indent is reported without its line number, so that two texts can be compared; `int()` and `float()` accept ASCII digits only, and the limit of 4300 digits at which recent CPython makes `int()` refuse (the parser then returns the text) is not modelled.
- Upper-casing of symbols and classes covers ASCII letters.
- FeedReconnect.Provider.ConnectWith: the catalogue and quotes inside `connect` are one outcome; a transport that raises anything other than a configuration error, and a provider without a transport, are left out.
- OptionPair.SelectOptionPair: the class of a row is a function of the row; `OptionPairMemo.SelectWithClassifier` takes the memo in.
- LiveLoop.LivePaperLoop.RunOnce: reports, the session summary and profit and loss are left out; marks, exit rules, strategies, guard and ledger are inputs of the cycle, and position ids are numbers in order of opening.
- ReplayStore.TradeReplayStore.Get: with every critical section run to its end the in-memory fallback has nothing to return; the fallback itself is a step of `ReplayProtocol`.
- BacktestRunner.Run: the manifest and the stress re-runs are left out, and so are engines that raise, which end a run without a report.
- WalkForward.SplitWindows: the settings with which it would not end are outside its requires; `EndsExactlyWhen` says that nothing else is.
- HistoryReload.LoadPayload: defaults for keys that a dump always has, and the conversion of timestamps, are left out.
- ExpiryCalendar.Classify: weekdays are 0 to 6 and dates have no first or last year.
- HTTP, sockets, CSV and instrument parsing, candles, Zerodha login, the dashboard, evidence reports, sample builders, campaign and session lifecycles.
