# kvAgregated, modelled and verified

kvAgregated receives weather observations from kvalobs, keeps the recent ones
in a local cache, and derives aggregates (12- and 24-hour rain, daily means,
station pressure) which it sends back. This project models its state machines
and its arithmetic in Dafny and proves what they guarantee. `dafny verify
dfyconfig.toml` checks everything.

Times are whole seconds, values are reals. An observation row is identified by
its six key columns (station, time, parameter, level, sensor, type).

| file | models |
|---|---|
| `Observations`, `Tables` | rows, keys, row lists as maps, the two row filters, upsert, merge |
| `DataAccess`, `ProxySpec`, `Proxy`, `ProxyRuns` | the cache table, kvalobs, the proxy that splits reads at its watermark, and runs of it |
| `CacheProtocol`, `Schedules`, `Uninterrupted` | the same proxy with every statement a step of its own, under any interleaving; the two views of it agree |
| `Sums`, `WorkQueue`, `RWLock` | the batch queue with its worker threads; the reader/writer lock |
| `Chains`, `Handler` | when a recursion ends; recursive aggregation over the handler table |
| `StandardAggregators`, `Windows`, `Flags`, `Rounding` | what all aggregators share |
| `Gauge`, `RainSums`, `Koppen` | rain gauge differences, rain sums, daily means |
| `CheckDecision`, `BackProduction`, `StationMetadata` | which rows start an aggregation, catching up, metadata lookup |
| `ProxiedAggregation` | the handler reading through the proxy |

State that the program updates in place is a class whose methods are proved
against functions of the old state (`KvalobsProxy`, `CachedDataAccess`,
`KvalobsDataAccess`, `IncomingHandler`, `RWMutex`, `AggregatorHandler`,
`ExtraCalculationData`); loops are methods with invariants. The theorems are
lemmas about those functions and about runs of steps. In the two concurrent
modules the class methods are the critical sections, and each is proved to take
exactly one step of the protocol.

## Findings

Where a property one would expect does not hold, the model keeps the code's
behaviour, shows a failing case and states the exact condition.

- A read that starts exactly on the watermark asks kvalobs for one instant,
  start included, and so returns rows that its interval excludes
  (`BoundaryReadReturnsTooMuch`). The read is right if and only if it does not
  start there or kvalobs has no row of the series there
  (`SplitReadIsDirectReadIff`). An aggregation throws if and only if an
  aggregator that runs on the trigger, or on a row produced on the way, makes
  such a read (`AggregationThrowsIff`); `ReadingOnWatermarkThrows` is a case. The
  real watermark usually has a fraction of a second, which makes it rare.
- Two of the workers (there are four) that cache two batches of one key in the
  wrong order leave a stale row in the cache for good
  (`OvertakingLeavesStaleRow`).
- `db_populate` lowers the watermark even if kvalobs refused the request: the
  cache then denies rows that exist (`RefusedFillDeniesRows`).
- A cleaning that falls between the rows and the watermark of a populate that
  reaches further back than 35 days loses rows (`CleaningInsideFillLosesRow`).
  For these last three, `Orderly` is the exact condition under which a step keeps
  the cache trustworthy (`StepKeepsInvIff`). `Disciplined` is what the threads can
  see to: it implies `Orderly` at every step (`DisciplineKeepsInv`).
- The comment at `src/AggregatorHandler.cc:134-136` says that the trigger
  replaces a stored row with its key. The code keeps the stored row, and so does
  the model (`StoredRowWins`).
- The pressure aggregator reads what it writes. What ends the recursion is that
  no sea level pressure is ever generated, which every run keeps
  (`EveryAggregationEnds`). Without that, the recursion goes on for ever on a
  trigger if and only if a station pressure is made of it that the filters admit,
  that can be computed again and that was stored before (`RecursionEndsIff`);
  `PressureCanRepeatForever` is a store of three rows on which it does.
- Forward and backward gauge aggregation can calculate different rain for one
  period; `ForwardAgreesWithBackwardIff` lists exactly when they agree, and
  `EmittedRowsMayDiffer` has readings for which the rows emitted differ.
- Back production retries an hour only after an exception. A refused fetch counts
  as done: an hour goes without its data if and only if its attempt was refused
  (`HourIsLostIff`, `RefusedFetchLosesItsHourIff`).
- The lookup that keeps RA and RR_1 apart ignores the time. Over all stores that
  hold two such rows, exactly one of them is aggregated if and only if their
  times are equal (`ExclusiveOverStoresIff`). Each half has one further case in
  which it cannot fail (`NeverBothOverStoresIff`, `NeverNeitherOverStoresIff`).
  `DifferentTimesMayBothRun` and `DifferentTimesMayNeitherRun` are batches of one
  hour.
- A row can go unsent although kvalobs holds another value, when it repeats what
  the cache says while a newer row of its key waits to be cached
  (`RowSuppressedByStaleCache`; exactly when: `SuppressedIsCloseIff`).
- The reader/writer lock never leaves all waiters unsignalled while it is free,
  and where nobody can go on nobody waits (`EveryRequestIsServed`). But a reader
  can stay blocked behind readers, with three threads or more and only then
  (`ReaderMayWaitBehindReaderIff`), and a writer can starve, as the lock's comment
  warns, with two threads or more and only then (`WriterMayStarveIff`). With three
  it need not even be signalled (`WriterMayStayUnsignalledIff`).

## Model

| member | source | states |
|---|---|---|
| Tables.KeepRefines | src/proxy/KvalobsDataAccess.cpp:71-80 | removing rows from a list removes exactly the same keys from the map the list stands for, repeated keys included |
| Tables.UpsertAllRefines | src/proxy/CachedDataAccess.cpp:128-164 | insert, or delete and insert, keeps the six-column key unique over any batch and acts as a last-writer-wins map update |
| Tables.AnswersHaveDistinctTimes | src/proxy/ProxyDatabaseConnection.cpp:74-88 | in a store without sensor aliases, either filter answers with one row for each time |
| Tables.MergeRefines | src/proxy/KvalobsProxy.cc:311-316 | the merge of two answers has every key once and prefers kvalobs' row |
| Tables.IntervalThenSeries | src/proxy/KvalobsDataAccess.cpp:71-80 | fetching an interval and then removing other series selects exactly what one row filter selects |
| Tables.FiltersDifferOnOneSensor | src/proxy/CachedDataAccess.cpp:85-106 | for ordered intervals the cache's `where` clause and kvalobs' filter agree on a row unless its sensor is the one number, 48 away, that only kvalobs' filter takes for an alias |
| Tables.FiltersAgree | src/proxy/KvalobsDataAccess.cpp:50-67 | for sensors 0 to 9 or '0' to '9' both filters select the same rows |
| DataAccess.CachedDataAccess.GetData | src/proxy/CachedDataAccess.cpp:76-126 | returns exactly the table rows that the `where` clause accepts |
| DataAccess.CachedDataAccess.Insert | src/proxy/ProxyDatabaseConnection.cpp:74-88 | an insert is refused if and only if its key is in the table; a refusal changes nothing |
| DataAccess.CachedDataAccess.SendData | src/proxy/CachedDataAccess.cpp:128-164 | the table becomes the upsert of the batch and keeps unique keys |
| DataAccess.KvalobsDataAccess.GetData | src/proxy/KvalobsDataAccess.cpp:71-107 | returns exactly the rows of the series in the interval, start exclusive unless it equals the end; nothing when kvalobs refuses |
| DataAccess.RemoveOtherSeries | src/proxy/KvalobsDataAccess.cpp:48-80 | the loop keeps exactly the rows of one series, in order |
| ProxySpec.SplitReadAt | src/proxy/KvalobsProxy.cc:287-319 | key by key, from which side a row of the split read comes |
| ProxySpec.SplitReadRefines | src/proxy/KvalobsProxy.cc:287-319 | while cache and source agree above the watermark the split read has each key once and is the direct read, plus the rows at its start when it starts on the watermark |
| ProxySpec.SplitReadIsDirectReadIff | src/proxy/KvalobsProxy.cc:287-319 | split read and direct read are equal if and only if the read does not start on the watermark or kvalobs has no row of the series there |
| ProxySpec.BoundaryReadReturnsTooMuch | src/proxy/KvalobsDataAccess.cpp:88-90 | an agreeing cache and a read whose answer leaves its own window |
| ProxySpec.ReadsStayInWindow | src/proxy/KvalobsProxy.cc:287-319 | for any contents, an answer leaves its window if and only if the read starts on the watermark and finds a row there |
| ProxySpec.UnsetWatermarkReadsDirectly | src/proxy/KvalobsProxy.cc:295-307 | with no watermark the read is the direct read, whatever values the cache holds for keys that kvalobs has |
| ProxySpec.DirectReadIff | src/proxy/KvalobsDataAccess.cpp:48-107 | a row is in the direct read if and only if it is stored, has the station, parameter, type and level asked for, the sensor in either way of writing it, and a time after the start and up to the end |
| ProxySpec.PointRead | src/proxy/KvalobsProxy.cc:343-352 | the point read behind the update test finds exactly the stored row of that key |
| ProxySpec.UpdatesIff | src/proxy/KvalobsProxy.cc:207-249 | a row is sent if and only if its key is not stored or it differs in validity, in control information, or by more than 0.04999 |
| ProxySpec.NotSentIff | src/proxy/KvalobsProxy.cc:207-249 | an interesting row of a batch is not sent on if and only if kvalobs has a row of its key with equal validity, missing state and control information, and with each value that counts within 0.04999 |
| ProxySpec.SentRow | src/proxy/KvalobsProxy.cc:258-266 | of a batch with distinct keys each row is sent unchanged or not at all |
| ProxySpec.DeliverKeepsClean | src/proxy/KvalobsProxy.cc:251-285 | a delivery, accepted or not, keeps both tables keyed and in agreement |
| ProxySpec.SendKeepsStoreClose | src/proxy/KvalobsProxy.cc:251-285 | after an accepted delivery every offered interesting row is stored with its flags and within 0.04999 of its values |
| ProxySpec.RepeatedSendIsEmpty | src/proxy/KvalobsProxy.cc:251-285 | offering an accepted batch again sends nothing |
| ProxyRuns.DoKeepsGood | src/proxy/KvalobsProxy.cc:174-285 | a delivery, another batch, a cleaning, or a fill that leaves out no row below the watermark keeps keys unique and the tables in agreement |
| ProxyRuns.RunKeepsGood | src/proxy/KvalobsProxy.cc:174-335 | the same over any run of them |
| ProxyRuns.DriftNeverAccumulates | src/proxy/KvalobsProxy.cc:251-285 | after any run of deliveries, other batches, cleanings and fills the store is within one threshold of the value last offered and accepted, however many smaller changes were suppressed |
| Proxy.KvalobsProxy.constructor | src/proxy/KvalobsProxy.cc:125-147 | a new proxy keeps the rows of its database file under a watermark two hours ahead |
| Proxy.KvalobsProxy.StartUp | src/main.cc:208-262 | after start-up, with the parameters registered, the proxy is coherent if and only if the old file agrees with kvalobs beyond two hours ahead; or, filled anew, if and only if kvalobs answered for all it has after the fill's start |
| Proxy.KvalobsProxy.DbRepopulate | src/proxy/KvalobsProxy.h:88-92 | the cache then holds exactly what kvalobs showed of the hours up to now |
| Proxy.KvalobsProxy.AddInteresting | src/proxy/KvalobsProxy.h:71-76 | a further parameter keeps the proxy coherent if and only if its rows above the watermark agree |
| Proxy.KvalobsProxy.GetData | src/proxy/KvalobsProxy.cc:287-319 | the method computes the split read, whose properties are the lemmas above |
| Proxy.KvalobsProxy.Merge | src/proxy/KvalobsProxy.cc:311-316 | the search-and-append loop computes the merge |
| Proxy.KvalobsProxy.CacheData | src/proxy/KvalobsProxy.cc:321-335 | caches exactly the interesting rows; coherence survives if and only if the batch contradicts kvalobs nowhere above the watermark |
| Proxy.KvalobsProxy.SelectUpdates | src/proxy/KvalobsProxy.cc:258-266 | the loop selects the part of a batch worth sending |
| Proxy.KvalobsProxy.SendData | src/proxy/KvalobsProxy.cc:251-285 | both tables take exactly the rows sent, or neither changes; the three results; coherence survives |
| Proxy.KvalobsProxy.DbClear | src/proxy/KvalobsProxy.cc:157-164 | coherent afterwards if and only if kvalobs has no interesting row more than an hour ahead |
| Proxy.KvalobsProxy.DbPopulate | src/proxy/KvalobsProxy.cc:174-188 | new cache and watermark, set or unset before, request answered or refused; coherent afterwards if and only if the times not filled, up to the old watermark, agreed already |
| Proxy.KvalobsProxy.DbCleanup | src/proxy/KvalobsProxy.cc:190-205 | the watermark rises, older rows go, coherence survives |
| Proxy.CachingAgreesIff | src/proxy/KvalobsProxy.cc:321-335 | when caching a batch keeps cache and source in agreement, exactly |
| Proxy.FillingAgreesIff | src/proxy/KvalobsProxy.cc:174-188 | when filling and lowering keeps them in agreement, exactly |
| Proxy.LoweringAgreesIff | src/proxy/KvalobsDataAccess.cpp:100-104 | when lowering after a refused request keeps them in agreement, exactly |
| Proxy.RepopulatedAgreesIff | src/proxy/KvalobsProxy.h:88-92 | when a cache filled anew agrees, exactly |
| CacheProtocol.ClearKeepsTrustIff | src/proxy/KvalobsProxy.cc:157-164 | clearing leaves a trustworthy cache if and only if kvalobs has no interesting row above the new watermark |
| CacheProtocol.StoreKeepsTrust | src/proxy/KvalobsProxy.cc:277-280 | kvalobs taking a batch that is still to be cached keeps the cache trustworthy up to pending writes |
| CacheProtocol.CacheRowKeepsTrustIff | src/proxy/IncomingHandler.cc:184-186 | caching a pending row keeps it trustworthy if and only if it does not overtake a different row of its key |
| CacheProtocol.DeleteKeepsTrustIff | src/proxy/KvalobsProxy.cc:203-203 | deleting keeps it trustworthy if and only if every covered row deleted is about to be written again |
| CacheProtocol.SnapshotKeepsTrustIff | src/proxy/KvalobsProxy.cc:176-178 | a fill keeps it trustworthy if and only if kvalobs' answer has every row of the interval that is not settled |
| CacheProtocol.CompleteSnapshotIsOrderly | src/proxy/KvalobsProxy.cc:176-178 | a complete answer always does |
| CacheProtocol.LowerKeepsTrustIff | src/proxy/KvalobsProxy.cc:180-184 | lowering keeps it trustworthy if and only if the times between the fill and the old watermark are settled |
| CacheProtocol.StepKeepsHonest | src/proxy/KvalobsProxy.cc:157-335 | at every step each cached or pending row is one that kvalobs held at some time |
| CacheProtocol.StepKeepsInvIff | src/proxy/KvalobsProxy.cc:157-335 | from a trustworthy state any possible step of any thread leads to one if and only if it is orderly |
| CacheProtocol.DisciplinedIsOrderly | src/proxy/KvalobsProxy.cc:157-335 | conditions that the threads can see to (rows of one key in order, complete fills, no cleaning begun that reaches into a fill nor a fill begun below a cleaning, no uncached row between a fill and the old watermark) imply the exact condition of each step, where a due deletion has been preceded by its raising of the watermark |
| CacheProtocol.DisciplineKeepsRaised | src/proxy/KvalobsProxy.cc:190-205 | at every disciplined step, while a deletion is due the watermark is at its limit or above, and no fill reaches below the limit |
| CacheProtocol.DisciplineKeepsTaken | src/proxy/KvalobsProxy.cc:321-335 | under them, all that came by since the cache was cleared stays in the cache or on its way, below the watermark too |
| CacheProtocol.DisciplineKeepsInv | src/proxy/KvalobsProxy.cc:157-335 | the invariant holds after every disciplined interleaving, of any length |
| CacheProtocol.ReadersSeeTheSource | src/proxy/KvalobsProxy.cc:287-319 | a read interleaved with any other steps shows kvalobs as answered below its watermark and kvalobs as it is above, save for rows still pending; never a half-done deletion or fill |
| CacheProtocol.NothingIsInvented | src/proxy/KvalobsProxy.cc:305-316 | whatever a read takes from the cache, kvalobs held |
| CacheProtocol.SuppressedIsCloseIff | src/proxy/KvalobsProxy.cc:343-352 | under any interleaving, when kvalobs is within the threshold of a row that is not sent: below the watermark its answer was; above, if and only if no row of the key waits to be cached or the newest one that does is |
| Schedules.RowSuppressedByStaleCache | src/proxy/KvalobsProxy.cc:343-352 | a run after which a row goes unsent although kvalobs holds another value |
| CacheProtocol.DisciplinedReadsAreDirectIff | src/proxy/KvalobsProxy.cc:287-319 | after any disciplined interleaving with nothing pending, the split read equals the direct read if and only if it does not start on the watermark or kvalobs has no row of the series there |
| Schedules.RefilledCacheAgrees | src/proxy/KvalobsProxy.h:88-92 | clearing and filling anew makes any cache trustworthy, and leaves it in agreement, while rows of any time arrive and reads go on, if kvalobs had no row ahead of the clock at the clearing |
| CacheProtocol.FirstOfItsKeyIsOrderly | src/proxy/IncomingHandler.cc:184-186 | caching the rows of each key in order of arrival is orderly |
| Schedules.DrainingIsOrderly | src/proxy/KvalobsProxy.cc:321-335 | whatever is in flight can be cached in order, and that is orderly |
| Schedules.DrainingSettles | src/proxy/KvalobsProxy.cc:321-335 | and leaves cache and source in agreement |
| CacheProtocol.CleaningIsOrderly | src/proxy/KvalobsProxy.cc:203-203 | where that holds, the deletion is orderly |
| Schedules.CleaningCompletes | src/proxy/KvalobsProxy.cc:190-205 | from any disciplined state, whatever its watermark, and with any disciplined steps in between: the first step of a cleaning makes the watermark the larger of the old one and the limit; the second leaves the invariant, the watermark as it is, and of the cache exactly the rows that are not older |
| Schedules.DrainingIsDisciplined | src/proxy/KvalobsProxy.cc:321-335 | caching what is in flight in order is disciplined |
| Schedules.OvertakingLeavesStaleRow | src/proxy/IncomingHandler.cc:84-92 | four possible steps from any start after which a stale row stays above the watermark |
| Schedules.RefusedFillDeniesRows | src/proxy/KvalobsDataAccess.cpp:100-104 | a refused fill followed by lowering makes the cache deny a stored row |
| Schedules.CleaningInsideFillLosesRow | src/proxy/KvalobsProxy.cc:174-205 | a cleaning inside a long fill loses a row |
| Uninterrupted.OperationAsSteps | src/proxy/KvalobsProxy.cc:174-335 | taken without interruption, the steps of a delivery, another batch, a cleaning or a fill are possible and lead to exactly the tables and watermark of the operation as a whole |
| Uninterrupted.ReadAsSteps | src/proxy/KvalobsProxy.cc:287-319 | the steps of a read give exactly the answer of the split read and leave no trace |
| WorkQueue.StepKeepsInv | src/proxy/IncomingHandler.cc:53-127 | every critical section, and spurious wake-ups, keep: each batch in exactly one place; untouched batches last and in order of arrival; while somebody sleeps no more batches queued than workers signalled |
| WorkQueue.RunKeepsInv | src/proxy/IncomingHandler.cc:53-140 | the same at every point of every run with any number of workers |
| WorkQueue.AllAsleepMeansAllDone | src/proxy/IncomingHandler.cc:66-78 | when everybody sleeps, every batch that arrived has been processed once |
| WorkQueue.SomebodyCanMove | src/proxy/IncomingHandler.cc:53-93 | unless everybody sleeps some worker can move |
| WorkQueue.StepPotential | src/proxy/IncomingHandler.cc:53-93 | arrivals, exceptions and spurious wake-ups give the workers at most four units of work; everything else uses one up |
| WorkQueue.RunPotential | src/proxy/IncomingHandler.cc:53-93 | a run's length is bounded by five times its disturbances plus the initial work |
| WorkQueue.EveryBatchIsProcessed | src/proxy/IncomingHandler.cc:53-127 | a run with finitely many disturbances is bounded, and where it stops every batch has been processed exactly once |
| WorkQueue.FirstAttemptsInOrder | src/proxy/IncomingHandler.cc:80-92 | first attempts are made in order of arrival in spite of requeuing at the front |
| WorkQueue.IncomingHandler.OnKvDataEvent | src/proxy/IncomingHandler.cc:120-127 | the critical section takes exactly the arrival step and keeps the invariant |
| WorkQueue.IncomingHandler.EnterLoop | src/proxy/IncomingHandler.cc:60-82 | the top of the loop sleeps on an empty queue, else takes the front batch |
| WorkQueue.IncomingHandler.Resume | src/proxy/IncomingHandler.cc:68-82 | after the wait the worker goes round again if somebody else was faster |
| WorkQueue.IncomingHandler.Process | src/proxy/IncomingHandler.cc:84-86 | processing ends a batch or leaves it to be put back |
| WorkQueue.IncomingHandler.PutBack | src/proxy/IncomingHandler.cc:86-92 | a failed batch goes to the front and one sleeper is signalled |
| RWLock.StepKeepsInv | src/proxy/ReadWriteLock.h:59-95 | every acquisition, release and spurious wake-up keeps: the fields say who is inside; a writer is alone; the lock is never free with threads blocked and none signalled |
| RWLock.WriterExcludesEverybody | src/proxy/ReadWriteLock.h:59-95 | in every run a writer excludes all readers and other writers, and the count is zero |
| RWLock.BlockedThreadsAreNotForgotten | src/proxy/ReadWriteLock.h:70-94 | in every run, while a thread is blocked another is inside or signalled |
| RWLock.ReaderMayWaitBehindReaderIff | src/proxy/ReadWriteLock.h:63-75 | a state with a reader blocked unsignalled behind readers only is reachable with m threads if and only if m is at least three |
| RWLock.WriterMayStarveIff | src/proxy/ReadWriteLock.h:40-42 | a cycle without spurious wake-ups during which a writer waits, signalled or not, is reachable with m threads if and only if m is at least two |
| RWLock.WriterMayStayUnsignalledIff | src/proxy/ReadWriteLock.h:70-75 | one during which it is not even signalled, if and only if m is at least three |
| RWLock.StepWeight | src/proxy/ReadWriteLock.h:59-95 | requests and spurious wake-ups give the threads at most two units of work; every other step uses one up |
| RWLock.EveryRequestIsServed | src/proxy/ReadWriteLock.h:59-95 | a run has at most three steps for each request or spurious wake-up, and where it can go no further nobody is inside and nobody waits |
| RWLock.RWMutex.ReadLock | src/proxy/ReadWriteLock.h:63-69 | one pass of the constructor takes exactly the reader's step |
| RWLock.RWMutex.ReadUnlock | src/proxy/ReadWriteLock.h:70-75 | the last reader out signals one waiter |
| RWLock.RWMutex.WriteLock | src/proxy/ReadWriteLock.h:82-88 | one pass of the constructor takes exactly the writer's step |
| RWLock.RWMutex.WriteUnlock | src/proxy/ReadWriteLock.h:89-94 | the writer leaves and signals one waiter |
| Handler.StepDescends | src/AggregatorHandler.cc:117-149 | every self-call is on an acceptable row of the trigger's series that is smaller in (parameter rank, sign of the type number) |
| Handler.GeneratedRowsStopPressure | src/aggregator/po.cc:89-136 | a generated row never yields station pressure as long as no sea level pressure is generated |
| Handler.NothingForFilteredOut | src/AggregatorHandler.cc:95-112 | a trigger that one of the three filters excludes leads to nothing |
| Handler.FirstResult | src/AggregatorHandler.cc:103-151 | for any other trigger the row of its first aggregator is the first result |
| Handler.HandlersInOrder | src/AggregatorHandler.cc:114-149 | of two aggregators that make rows, the earlier one's row, followed directly by all that it leads to, comes before the later one's |
| Handler.PressureMadeIff | src/aggregator/po.cc:136-190 | station pressure is computed if and only if the lists of both sources have a row at the trigger's time and the constants are found; it is computed from the first such rows |
| Handler.ComputedPressure | src/aggregator/po.cc:136-190 | its original value comes from the two originals and its corrected value from the two corrected ones, pressure first; one missing or rejected source makes it missing or rejected |
| Handler.WithheldIff | src/aggregator/po.cc:89-129 | the computed row is withheld if and only if kvalobs has no generated pressure of the series at that time and the station's own differs by less than 0.305 in both values |
| Handler.ResultsBelongToTrigger | src/aggregator/AbstractAggregator.cc:61-69 | every row of the recursion has the trigger's station, sensor and level, and its type number with a minus sign unless it is negative or zero already |
| Handler.ResultsBounded | src/AggregatorHandler.cc:114-149 | a trigger appends no more rows than its handlers cost |
| Handler.AtMostFourRows | src/main.cc:236-262 | with the configured table at most four rows for each trigger, fewer for most parameters |
| Handler.StartupTableIsConfigured | src/main.cc:236-262 | registering the thirteen aggregators in order yields that table, the pressure aggregator under its three parameters |
| Handler.TableLookup | src/AggregatorHandler.cc:64-74 | the multimap returns exactly the aggregators reading a parameter, in order of registration |
| Handler.TypeFilterStopsChains | src/AggregatorHandler.cc:103-112 | a filter that admits positive types only ends every chain after one row |
| Handler.NothingThrown | src/AggregatorHandler.cc:185-217 | while reads keep to their windows no trigger ends in an exception |
| Handler.StepThrowsIff | src/AggregatorHandler.cc:126-217 | one aggregator throws on a trigger if and only if it is interested and one of its reads leaves its window |
| Handler.ThrowsIff | src/AggregatorHandler.cc:114-167 | the recursion ends in an exception if and only if an aggregator throws on the trigger or on a row appended on the way |
| Handler.ResultsAreNotPressure | src/main.cc:236-262 | the recursion never produces sea level pressure |
| Handler.StoredRowWins | src/AggregatorHandler.cc:138-142 | the trigger joins its own list once, a stored row with its key wins, other lists stay |
| Handler.ListedIff | src/AggregatorHandler.cc:185-217 | over a store, the list an aggregator is given for a parameter has exactly the rows of the trigger's station, type, level and sensor in its window |
| Handler.GeneratedPressureStep | src/aggregator/po.cc:97-129 | what a generated station pressure triggers, in all cases of stored, computable and close values |
| Handler.PressureRepeatsIff | src/aggregator/po.cc:89-129 | the aggregator makes a generated station pressure of itself again if and only if it can be computed and is already stored; otherwise at most one more row follows |
| Handler.EndsByCalls | src/AggregatorHandler.cc:114-151 | the recursion ends on a trigger if and only if it ends on every row made of it |
| Handler.WellFormedEnds | src/AggregatorHandler.cc:114-151 | without generated sea level pressure of the trigger's series it ends, after no more self-calls than the trigger's measure |
| Handler.GeneratedPressureEndsIff | src/AggregatorHandler.cc:103-151 | on a generated station pressure it ends if and only if the filters refuse it, it cannot be computed, or it was not stored before |
| Handler.OthersEnd | src/main.cc:236-262 | with the configured table it ends on every trigger other than pressure and temperature, whatever the store |
| Handler.RecursionEndsIff | src/AggregatorHandler.cc:103-151 | with the configured table, exactly when it ends, for every trigger |
| Handler.PressureCanRepeatForever | src/aggregator/po.cc:41-47 | a store of three rows on which the recursion does not end |
| Handler.AggregatorHandler.AddHandler | src/AggregatorHandler.cc:64-74 | registers an aggregator under every parameter it reads and marks all its parameters interesting |
| Handler.AggregatorHandler.GetRelevantObsList | src/AggregatorHandler.cc:185-217 | reads one list for each parameter, or fails at the first row outside the window |
| Handler.AggregatorHandler.AddTrigger | src/AggregatorHandler.cc:138-142 | the search-and-append computes the trigger rule above |
| Handler.AggregatorHandler.Process | src/AggregatorHandler.cc:103-167 | the recursive method ends and appends exactly the specified rows, also when it throws |
| Handler.AggregatorHandler.RunHandlers | src/AggregatorHandler.cc:114-149 | each handler's row comes before what it triggers, handlers in order |
| StandardAggregators.GenerateOriginal | src/aggregator/StandardAggregator.cc:183-195 | one missing value makes the original missing, else it is calculated from all originals in order |
| StandardAggregators.GenerateCorrected | src/aggregator/StandardAggregator.cc:197-209 | the same for corrected values and validity |
| StandardAggregators.ProcessedRow | src/aggregator/StandardAggregator.cc:120-174 | whatever row results has the trigger's station, level and sensor, its type number made non-positive, and the last full hour of the window as its time |
| StandardAggregators.ProcessedValues | src/aggregator/StandardAggregator.cc:120-209 | a row results if and only if the aggregator accepts and neither the selection nor a calculation it needs throws; its values are calculated from all selected rows, missing or rejected if one of these is |
| Windows.WindowEndIsNextScheduled | src/aggregator/StandardAggregator.cc:69-88 | for any schedule a window ends at the first scheduled instant at or after the observation, over all days |
| Windows.NextScheduledIsUnique | src/aggregator/StandardAggregator.cc:69-88 | and at no other instant with that property |
| Windows.FullGapMeansSameWindow | src/aggregator/StandardAggregator.cc:69-88 | a time lies within one gap before a window's end if and only if it has that window |
| Windows.PartitionIff | src/aggregator/StandardAggregator.cc:69-88 | windows partition time if and only if they are as long as the schedule's gap |
| Windows.ConfiguredWindows | src/times.h:49-54 | the rain sums and daily means partition time, the 25-hour gauge windows do not |
| Windows.DatedAtWindowEnd | src/aggregator/StandardAggregator.cc:153-156 | a generated row is dated at its window's end |
| Flags.JoinIsLeastUpperBound | src/aggregator/AbstractAggregator.cc:111-139 | the merge order 0 < 4 < {1, 2} < 3 has least upper bounds |
| Flags.GetFmis | src/aggregator/AbstractAggregator.cc:111-139 | the switch with its early exits computes the join of the rows' flags |
| Flags.FmisOfConcat | src/aggregator/AbstractAggregator.cc:111-139 | the merged flag of two lists is the join of their merged flags |
| Flags.FmisIsLeastBound | src/aggregator/AbstractAggregator.cc:111-139 | it is the least flag above every row's flag |
| Flags.CalculateAggregateFlag | src/aggregator/AbstractAggregator.cc:142-193 | the method computes the decision table on the merged flag and the use flags |
| Flags.FlagOfSameRows | src/aggregator/AbstractAggregator.cc:142-193 | permuting or repeating source rows cannot change the aggregation flag |
| Flags.FaultlessIff | src/aggregator/AbstractAggregator.cc:142-193 | the flag is 1 if and only if no row is missing or carries a use flag 1, 2 or 9 |
| Flags.FmisIff | src/aggregator/AbstractAggregator.cc:111-139 | the merged missing flag is 0, 1, 2, 3 or 4, each exactly when: told by which missing flags occur among the rows, numbers out of range counting as none |
| Flags.FlagOfOneKindIff | src/aggregator/AbstractAggregator.cc:142-193 | the results 0xB, 7, 6, 5 and 4, each exactly when: told by which missing flags and which use flags occur among the rows |
| Flags.FlagOfEitherKindIff | src/aggregator/AbstractAggregator.cc:142-193 | the same for 9 and 8 |
| Flags.FlagOfNothingMissingIff | src/aggregator/AbstractAggregator.cc:142-193 | and for 3 and 2 |
| Flags.UnspecifiedIff | src/aggregator/AbstractAggregator.cc:142-193 | and for 0 |
| Rounding.RoundStepwise | src/aggregator/AbstractAggregator.cc:50-59 | the assignments compute the rounding function |
| Rounding.RoundIsNearest | src/aggregator/AbstractAggregator.cc:50-59 | rounding goes to the nearest tenth |
| Rounding.TiesGoAwayFromZero | src/aggregator/AbstractAggregator.cc:50-59 | and half a tenth away from zero |
| Rounding.RoundIsClose | src/aggregator/AbstractAggregator.cc:50-59 | within 0.05 |
| Rounding.RoundIsMonotone | src/aggregator/AbstractAggregator.cc:50-59 | monotone |
| Rounding.RoundIsIdempotent | src/aggregator/AbstractAggregator.cc:50-59 | idempotent |
| Rounding.BuildDataObject | src/aggregator/AbstractAggregator.cc:61-100 | the row built step by step is the specified one |
| Rounding.EmittedRow | src/aggregator/AbstractAggregator.cc:61-100 | the trigger's station, level and sensor, its type number made negative if it is positive and kept otherwise; original and corrected values exactly, the corrected one being the rounded one although it is set only beyond 0.05; when each is missing or rejected; the aggregation flag |
| Gauge.SpanOfReading | src/aggregator/ra2rr_12_forward.cc:40-46 | the windows of a reading, backward and forward |
| Gauge.ExtractUsefulData | src/aggregator/ra2rr_12.cc:131-156 | the loop, sort and checks compute the selection, failures included |
| Gauge.ExtractIff | src/aggregator/ra2rr_12.cc:131-156 | of distinct times a selection is made if and only if the window has three readings, or two that lie between twelve and thirteen hours apart; it is these readings in order of time |
| Gauge.AcceptedIff | src/aggregator/ra2rr_12.cc:57-93 | a window is accepted if and only if the trigger is dated at 06 or 18 and there is a row at 06 and one at 18 |
| Gauge.SortSorts | src/aggregator/ra2rr_12.cc:138-138 | the sort permutes and orders |
| Gauge.BackwardSelection | src/aggregator/ra2rr_12.cc:83-156 | an accepted window never fails and yields T-12h and T, and T-24h if and only if present |
| Gauge.ForwardSelection | src/aggregator/ra2rr_12_forward.cc:40-46 | an accepted window never fails and yields exactly T and T+12h, the window's end |
| Gauge.AcceptedGaugeProducesRow | src/aggregator/StandardAggregator.cc:120-174 | an accepted window always produces a row, dated at its last reading |
| Gauge.RainIsNonNegative | src/aggregator/ra2rr_12.cc:125-128 | rain is never negative |
| Gauge.RainIgnoresGaugeZero | src/aggregator/ra2rr_12.cc:95-129 | shifting all readings changes nothing |
| Gauge.TotalBoundedByRises | src/aggregator/ra2rr_12.cc:95-129 | over any series the total is at most the positive rises plus 0.01 for each period |
| Gauge.SteadyRainTelescopes | src/aggregator/ra2rr_12.cc:95-129 | while every reading rises by 0.01 the total is last minus first |
| Gauge.RainOfFirstPeriod | src/aggregator/ra2rr_12.cc:95-129 | the first period's rain is the rise, or nought below 0.0001 |
| Gauge.NoRiseIsNoRain | src/aggregator/ra2rr_12.cc:95-129 | later, a rise below 0.01 is no rain |
| Gauge.RiseAfterRainOrEmptying | src/aggregator/ra2rr_12.cc:95-129 | after a rise of 0.01, or after the gauge sank by 100 or more, a rise is rain in full |
| Gauge.DipIsMadeGood | src/aggregator/ra2rr_12.cc:95-129 | after a smaller drop, the two periods together are given what the level rose on balance, if that is above 0.01, and nothing otherwise |
| Gauge.SmallRiseIsCarried | src/aggregator/ra2rr_12.cc:95-129 | after a rise from 0.0001 to 0.01 the next one includes it; these four cases are all there are |
| Gauge.ReportedIsCloseToRain | src/aggregator/AbstractAggregator.cc:50-59 | rounding costs at most 0.05 for each period |
| Gauge.ForwardAgreesWithBackwardIff | src/aggregator/ra2rr_12.cc:95-129 | when the rain calculated from two readings is that calculated from three, exactly |
| Gauge.BothEmit | src/aggregator/ra2rr_12_forward.cc:40-46 | three readings twelve hours apart make both aggregators emit a row of one key, each with its own rounded rain |
| Gauge.EmittedRowsMayDiffer | src/aggregator/ra2rr_12.cc:95-129 | readings for which those rows differ |
| RainSums.Calculate | src/aggregator/rr.cc:61-76 | the loop computes the sum of non-negative values, or -1 if and only if there is none |
| RainSums.OneValueMore | src/aggregator/rr.cc:61-76 | one value more adds itself if it is not negative, replaces the sentinel if it is the first such, and else changes nothing |
| RainSums.RrComposes | src/aggregator/rr.cc:61-76 | summing in two levels is summing at once, sentinel included |
| RainSums.Reported24IsCloseToHourly | src/aggregator/rr.cc:61-76 | with rounding at both levels the 24-hour sum is within 0.15 of the hourly values, and -1 if and only if none counted |
| RainSums.ShouldProcess | src/aggregator/rr_24.cc:45-68 | the nested search accepts if and only if both sums are there |
| RainSums.AcceptedDayIff | src/aggregator/rr_24.cc:45-68 | a window's rows are accepted if and only if the trigger is dated at 06 or 18 and there are a row at the window's end and one twelve hours earlier |
| RainSums.ExtractUsefulData | src/aggregator/rr_24.cc:70-84 | the nested loops collect the 06 rows and then the 18 rows |
| RainSums.TwoSumsMakeADay | src/aggregator/rr_24.cc:45-84 | an accepted day yields exactly its morning and its evening sum, in that order |
| Koppen.FilterByFullHour | src/aggregator/ta_24.cc:78-86 | the loop keeps exactly the full-hour rows |
| Koppen.FullHourIff | src/aggregator/ta_24.cc:68-73 | a time counts as a full hour if and only if it is a whole number of hours |
| Koppen.MeanDecision | src/aggregator/MeanValueAggregator.cc:46-59 | accepts 24 rows, or 8 at three-hour times |
| Koppen.MatchingObsTimes | src/aggregator/KoppenBasedMeanValueAggregator.cc:64-77 | the loop finds three rows six hours apart if and only if they exist |
| Koppen.AcceptedIff | src/aggregator/KoppenBasedMeanValueAggregator.cc:80-91 | a day's full hours are accepted if and only if they are 24; or 8, all at hours that three divides; or include 06, 12 and 18 for a trigger at one of 00, 06, 12, 18; or are 07, 13 and 19 for a trigger an hour after one of these |
| Koppen.ExtractUsefulData | src/aggregator/KoppenBasedMeanValueAggregator.cc:111-126 | the loop computes the selection, failure included |
| Koppen.AcceptedSelectionIsTotal | src/aggregator/KoppenBasedMeanValueAggregator.cc:80-126 | once accepted, selection cannot throw: all 24 or 8 rows, or those at 06, 12, 18 (07, 13, 19) in that order |
| Koppen.SameAcceptance | src/aggregator/KoppenBasedMeanValueAggregator.cc:80-91 | acceptance does not depend on the order of the rows |
| Koppen.SameSelection | src/aggregator/KoppenBasedMeanValueAggregator.cc:111-126 | nor does the selection for the formula |
| Koppen.MeanIsOrderFree | src/aggregator/MeanValueAggregator.cc:67-70 | nor do the two means |
| Koppen.DailyValueIsOrderFree | src/aggregator/ta_24.cc:89-100 | so the whole emitted row, flags included, does not depend on the order |
| Koppen.MinimaAreTwo | src/aggregator/ta_24.cc:132-152 | with minima dated at 06 and 18 o'clock, an answer that suffices has exactly the day's two, and their order does not matter |
| Koppen.ExtraCalculationData.MinimumTemperature | src/aggregator/ta_24.cc:113-153 | the minima of the trigger's day and series are looked up once; later questions get the same answer whatever the store says then; failure is not remembered |
| Koppen.ProcessTemperatures | src/aggregator/ta_24.cc:51-153 | a whole aggregation, its two calculations sharing one memo, emits the row made from a single look at the store, even if the store changes between them |
| Koppen.FormulaLiesBetween | src/aggregator/ta_24.cc:51-65 | for factors up to one the result lies between the minimum and the mean |
| Koppen.FormulaLaw | src/aggregator/ta_24.cc:51-65 | for every factor and minimum, mean less result is the factor times mean less minimum; a missing minimum gives the error value |
| Koppen.FormulaAtTheEnds | src/aggregator/ta_24.cc:60-64 | factor 0 gives the mean, factor 1 the minimum |
| Koppen.FormulaFallsWithFactor | src/aggregator/ta_24.cc:60-64 | on a day warmer than its minimum the result strictly falls as the factor grows |
| Koppen.MinimumIsLowest | src/aggregator/ta_24.cc:132-152 | the minimum is the lower of the two, as original and as corrected value, and missing if one of them is |
| Koppen.MinimaAskedFor | src/aggregator/ta_24.cc:132-140 | over a store, the minima asked for are the TAN_12 rows of the trigger's series on its date from 06 to 18 o'clock |
| Koppen.DailyTemperature | src/aggregator/ta_24.cc:51-153 | the emitted row of a day left to the formula, from its three observations and two minima: key, both values, and when each is missing or rejected |
| Koppen.MeanTimesCount | src/aggregator/MeanValueAggregator.cc:67-70 | any number of values other than three gives their mean: times their number it is their sum, and none gives no value |
| CheckDecision.Rr1ShouldOverrideRa | src/checkDecision/RR1OverridesRADecider.cc:70-97 | the method decides the precedence rule |
| CheckDecision.Decide | src/checkDecision/CompleteCheckDecider.cc:55-62 | the chain of deciders decides the complete rule |
| CheckDecision.FindRr1 | src/KvDataFunctors.cc:51-61 | finds a row of the same series, whatever its time |
| CheckDecision.ExactlyOneSourceOfRain | src/checkDecision/RR1OverridesRADecider.cc:45-97 | RA and RR_1 of one series and time, delivered together, are never both accepted and never both refused, for any store |
| CheckDecision.GaugeIsFallback | src/checkDecision/RR1OverridesRADecider.cc:80-94 | once both are stored the gauge is used if and only if an hourly value is unusable |
| CheckDecision.DecisionIff | src/checkDecision/CompleteCheckDecider.cc:55-62 | over any store, exactly when a row starts an aggregation: the station range with its list of parameters; hourly rain if there is some in the last eleven hours and, beside a gauge reading, all of it is good; a gauge reading if not, or if the batch has no hourly row of the very same series |
| CheckDecision.ExclusiveOverStoresIff | src/checkDecision/RR1OverridesRADecider.cc:45-97 | for rows of one series in one batch: over all stores that hold both, exactly one of them is accepted if and only if their times are equal |
| CheckDecision.NeverBothOverStoresIff | src/checkDecision/RR1OverridesRADecider.cc:70-97 | over all stores that hold both rows, never both if and only if their times are equal, or the hourly value is unusable and the gauge was read within the eleven hours before it |
| CheckDecision.NeverNeitherOverStoresIff | src/checkDecision/RR1OverridesRADecider.cc:70-97 | and never neither if and only if their times are equal, or the hourly value is unusable and lies within the eleven hours before the gauge was read |
| CheckDecision.DifferentTimesMayNeitherRun | src/KvDataFunctors.cc:51-61 | a batch within one hour, over a store that holds it, in which neither runs |
| CheckDecision.DifferentTimesMayBothRun | src/KvDataFunctors.cc:51-61 | a batch within one hour, over a store that has exactly its rows, in which both run |
| BackProduction.Run | src/BackProduction.cc:77-96 | the loop ends; unless stopped it leaves every started hour behind, in order; an attempt is repeated if and only if it threw |
| BackProduction.HoursTileTime | src/BackProduction.cc:98-111 | every second up to the end of the last started hour lies in exactly one hour |
| BackProduction.HourIsLostIff | src/BackProduction.cc:81-121 | hour j is left behind without its data if and only if the attempt that follows j others that did not throw was refused |
| BackProduction.RefusedFetchLosesItsHourIff | src/BackProduction.cc:115-121 | some hour is lost if and only if some fetch was refused |
| StationMetadata.GetStationMetadata | src/proxy/KvalobsDataAccess.cpp:138-216 | the most specific compatible entry, the first among equals; an error if and only if there is none or kvalobs does not answer |
| StationMetadata.UnrestrictedEntry | src/proxy/KvalobsDataAccess.cpp:140-172 | an entry that restricts nothing is compatible with exactly the station's rows and has the lowest rank |
| StationMetadata.RestrictingTime | src/proxy/KvalobsDataAccess.cpp:140-172 | a time limit excludes exactly the rows beyond it and does not change the rank |
| StationMetadata.RestrictingColumn | src/proxy/KvalobsDataAccess.cpp:140-172 | a restricted column excludes exactly the rows with another value in it and raises the rank by one |
| ProxiedAggregation.ProxyAnswersStayInWindowIff | src/AggregatorHandler.cc:185-217 | through a proxy all reads keep to their windows if and only if kvalobs has no row dated on the watermark |
| ProxiedAggregation.StepThrowsOnWatermarkIff | src/AggregatorHandler.cc:185-217 | an aggregator throws on a trigger if and only if it is interested, its window starts on the watermark, and kvalobs has a row of a series it reads at that instant |
| ProxiedAggregation.AggregationThrowsIff | src/AggregatorHandler.cc:103-167 | a trigger ends in an exception if and only if that happens to it or to a row produced on the way |
| ProxiedAggregation.NothingThrowsIff | src/AggregatorHandler.cc:103-167 | no trigger ends in an exception if and only if no possible row meets a row dated on the watermark itself |
| ProxiedAggregation.ReadingOnWatermarkThrows | src/proxy/KvalobsDataAccess.cpp:88-90 | in any ranked table with the backward gauge aggregator, a gauge reading that throws over a cache that agrees with kvalobs |
| ProxiedAggregation.ProxyHasNoGeneratedPressure | src/aggregator/po.cc:41-47 | over tables without generated sea level pressure the recursion's premise holds for every trigger |
| ProxiedAggregation.EveryAggregationEnds | src/AggregatorHandler.cc:75-93 | the recursion ends on every trigger after any run of proxy operations and of aggregations whose results are sent, as long as incoming sea level pressure is reported |
| ProxiedAggregation.GaugeListIsWindow | src/AggregatorHandler.cc:126-142 | over a clean proxy the gauge aggregator gets a window's rows, one for each time, the trigger among them |
| ProxiedAggregation.AcceptedGaugeReadingYieldsRain | src/aggregator/ra2rr_12.cc:83-156 | over a clean proxy every accepted gauge reading yields an RR_12 row of its series |
| ProxiedAggregation.AcceptedReadingIsAggregated | src/AggregatorHandler.cc:103-151 | from a delivered reading to the rows sent: that row, dated at its window's end, is the first result of the recursion |

## Left out

- SQL text and driver errors, Kafka and CORBA transport, `KvApp`, logging, metrics, configuration and option parsing: only their effect on the tables is modelled. A cache statement never fails, and the cache answers in order of insertion.
- kvalobs itself: a keyed row store that answers or refuses a request and accepts or refuses a delivery. In `Proxy` a refused request yields no rows; in `CacheProtocol` it may yield some.
- The kvalobs library: `valid` and `original_missing` are fields of a row, `reject` and `correct` set validity and the corrected value, and of a new row's control information only the aggregation flag is followed. The use flags that the library derives from it are not.
- The columns tbtime and cfailed, and fractions of a second.
- The stop flag and shutdown of the worker threads and of the main loop (except `BackProduction.Run`, which may be stopped), exceptions that are not `std::exception`, and the pid file.
- Empty batches in `IncomingHandler::process` and what the callbacks do.
- `db_clear` while other threads are in the middle of something, the cleaner thread's timing, and `setOldestInProxy`.
- The send mutex: `CacheProtocol` lets deliveries interleave more freely than it does.
- Floating point: rounding errors, and integer overflow in the conversion inside `round`.
- Inverted intervals in reads, which the two data access objects treat differently; the refinement theorems are for `from <= to`.
- Station number 0 in a read, which kvalobs takes for all stations.
- The pressure formulas are an arbitrary function, as are Köppen's factor, the wall-clock tests of `isInterestedIn`, and the aggregators MinMax, rr_1, nn_24, uu_24 and ot_24 beyond their place in the handler table: their arithmetic would add easy members only.
- An empty list of full-hour rows, for which `shouldProcess` takes the front of an empty list, counts as not accepted.
- Changes to the store while one trigger is processed: the handler reads through a fixed function.
- The shutdown test between handlers, and parsing of back production's time specification. The attempts of `BackProduction.Run` fail finitely often.
- Rows that kvalobs takes between the start-up fill and the subscription: every row kvalobs takes is one that reaches the proxy.
- Handler.AggregatorHandler.Process: is stated for triggers on which the recursion ends; `RecursionEndsIff` says exactly which they are with the configured table.
- Handler.AggregatorHandler.RunHandlers: the same.
- Handler.AggregatorHandler.RunHandler: the same.
- CacheProtocol.ReadersSeeTheSource: is stated for reads that do not start on the watermark; `DisciplinedReadsAreDirectIff` covers those.
