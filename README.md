# Industry Vis query core, modelled in Dafny

Industry Vis is a desktop application. It reads tag histories (time, tag
name, value, quality) from an industrial SQL Server historian and draws
them as charts. This project models the core of its Rust back end:

- **Query cache** (`Cache`). The LRU query cache keeps entries for a fixed
  lifetime and counts hits and misses. It builds its keys from the table,
  the time range, the sorted tag list and the processing configuration,
  and it evicts expired entries.
- **Cache warm-up** (`Warmup`). The warmer runs fetch tasks into the
  cache, skips keys that are already cached and reports progress. Two
  strategies generate the tasks.
- **Processing pipeline** (`Native`, `Processing`).
  - Per tag, the pipeline removes outliers outside three standard
    deviations, resamples into epoch-aligned windows by mean, and smooths
    with a centred moving average.
  - It then downsamples to at most 5000 points per tag and sorts by time.
  - It can also regroup the records into one chart series per tag.
- **Query service** (`Services`). The service serves history queries
  (two result formats) through the cache. A forced refresh bypasses the
  cache, and results can be paginated.
- **Application state** (`AppStateModel`). It owns the shared cache, the
  connection pool and the query service created with it, and the schema
  profile named by the configuration.
- **SQL schema profiles** (`SchemaProfile`, `DefaultSchema`,
  `ProfileRegistry`). Profiles write the SQL text of the tag search and
  history queries, escape every spliced value, build the tag filter, and
  map a result row to a record. The registry selects a profile by name.
- **Configuration** (`ProcessingConfig`, `Performance`). This covers the
  processing configuration and its builders, plus the performance
  configuration with its range checks and presets.
- **Tag groups** (`TagGroups`, `TagGroupStore`). Groups hold charts that
  hold tags, and are validated on creation and update. The manager
  creates, updates and deletes groups under a unique-name rule.
- **Errors** (`Errors`). This covers the error type, its display text,
  its classification, the connection error with a hint, and the payload
  sent to the UI.

Several helper modules are not part of the source. `Wrappers`, `Checks`,
`Strings`, `Sorting`, `Numeric`, `Grouping` and `Models` hold the
sequences, orders, sums and means that the modules above are defined
with. `Grouping` defines grouping records by tag (in the order a tag
first appears) and shows that the three regroupings of the source
(processing, downsampling, chart series) are permutations of their input.

Time is an integer number of milliseconds. The clock is a parameter of
every operation that reads it. Parsing and formatting time text are
parameters (`TimeText`). Values are exact `real`s. Each operation that
changes state is a method of a class, proved equal to a pure step
function on the state. The lemmas are stated about that step function.

## Model

| member | source | states |
|---|---|---|
| Errors.ToString | src-tauri/src/error.rs:9-56 | The display text starts with the variant's fixed prefix and contains the wrapped message |
| Errors.HintFor | src-tauri/src/error.rs:60-73 | The hint is chosen in priority order: error 4060 gives the missing-database hint, then 18456 gives the credentials hint, then "Login failed"; each case is stated as an if-and-only-if |
| Errors.ConnectionWithHint | src-tauri/src/error.rs:60-73 | The result is always a Connection error; its message starts with the chosen hint and contains the original driver text, plus the database name for error 4060 |
| Errors.Serialize | src-tauri/src/error.rs:93-106 | The UI payload carries the display text and the retryable flag |
| Errors.HintedErrorIsRetryableAndUserFacing | src-tauri/src/error.rs:76-90 | A hinted connection error is retryable and user-facing, and its payload says retryable |
| Errors.RetryableUserFacing | src-tauri/src/error.rs:76-90 | A retryable error is user-facing exactly when it is not a pool error |
| Errors.PayloadCarriesMessage | src-tauri/src/error.rs:93-106 | The payload of any error that has a message contains that message |
| Errors.HintExamples | src-tauri/src/error.rs:119-126 | "error 4060" gets the missing-database hint and "error 18456" the credentials hint |
| Cache.DefaultCacheConfig | src-tauri/src/cache.rs:26-33 | The default cache holds 50 entries for 300 seconds |
| Cache.NewCacheKey | src-tauri/src/cache.rs:51-88 | The key keeps the table and the time range; its tags are sorted and are a permutation of the given tags (none means empty); it carries the processing configuration |
| Cache.KeyIgnoresTagOrder | src-tauri/src/cache.rs:47-88 | Two tag lists give the same key if and only if they are permutations of each other |
| Cache.KeyNoTagsIsEmptyTags | src-tauri/src/cache.rs:58-60 | No tag list and an empty tag list give the same key |
| Cache.KeyExamples | src-tauri/src/cache.rs:282-331 | Tags in another order give the same key; configurations that differ give different keys |
| Cache.Capacity | src-tauri/src/cache.rs:145-157 | The LRU capacity is the configured size, or 50 when that is zero |
| Cache.Unexpired | src-tauri/src/cache.rs:259-275 | The entries kept after expired ones are removed: an order-preserving subsequence holding exactly the unexpired entries |
| Cache.GetStepFacts | src-tauri/src/cache.rs:167-200 | A get keeps the cache valid and counts one hit or one miss. It hits exactly when an unexpired entry has the key, and then returns that entry's data and makes it most recent. On a miss the key is absent afterwards. Every other key stays present or absent as before |
| Cache.GetStepKeepsOthers | src-tauri/src/cache.rs:167-200 | A get moves or removes only the entry under its key. The other entries keep their data, timestamps, lifetimes and LRU order: after a miss the slots are the old ones without that key, an order-preserving subsequence; after a hit they are those followed by the found entry |
| Cache.LookupBySlot | src-tauri/src/cache.rs:167-200 | A get is decided by the one entry under its key: an absent key gives None, an expired entry None, a fresh entry its data |
| Cache.PutStepKeepsOthers | src-tauri/src/cache.rs:203-214 | A put changes only the entry under its key and, when the key is new and the cache full, evicts exactly the least recent entry. Every other entry keeps its data, timestamp, lifetime and LRU order, before the new entry |
| Cache.OtherLookupsUnchanged | src-tauri/src/cache.rs:167-214 | A get or a put under one key leaves the answer to a get of any other key, at any time, unchanged, unless the put evicts that key as least recent. So stored data stays retrievable until it expires, is evicted or is cleared |
| Cache.PutStepFacts | src-tauri/src/cache.rs:203-214 | A put keeps the cache valid and the counters unchanged. The new entry becomes most recent. The size grows by one unless the key was present or the cache was full, and then only the least recent key is evicted |
| Cache.GetAfterPut | src-tauri/src/cache.rs:333-352 | A get within the lifetime of a put returns the stored data and counts a hit |
| Cache.GetAfterExpiry | src-tauri/src/cache.rs:421-450 | A get after the lifetime has passed misses, counts a miss and removes the entry |
| Cache.EvictExpiredFacts | src-tauri/src/cache.rs:259-275 | Eviction keeps the cache valid; it keeps exactly the unexpired entries and leaves the counters alone |
| Cache.HitRate | src-tauri/src/cache.rs:233-238 | The hit rate lies between 0 and 100 and is hits/(hits+misses) times 100 when there were requests |
| Cache.EstimatedMemory | src-tauri/src/cache.rs:240-244 | The estimate is 100 bytes times the number of records held across all entries, so 0 for an empty cache |
| Cache.EstimatedMemoryAppend | src-tauri/src/cache.rs:240-244 | The estimate of two groups of entries is the sum of their estimates |
| Cache.Stats | src-tauri/src/cache.rs:229-254 | The statistics report the counters, the entry count, the configured size, the hit rate and the memory estimate |
| Cache.QueryCache.constructor | src-tauri/src/cache.rs:145-157 | A new cache is empty with zero counters and the capacity rule above |
| Cache.QueryCache.Get | src-tauri/src/cache.rs:167-200 | The new state and the result are those of the get step |
| Cache.QueryCache.Put | src-tauri/src/cache.rs:203-214 | The new state is the put step, with the configured lifetime in milliseconds |
| Cache.QueryCache.Clear | src-tauri/src/cache.rs:217-226 | Clearing empties the cache and zeroes both counters |
| Cache.QueryCache.GetStats | src-tauri/src/cache.rs:229-254 | Returns the statistics of the current state |
| Cache.QueryCache.EvictExpired | src-tauri/src/cache.rs:259-275 | The new state is the eviction step: expired keys are collected, then popped one by one |
| Cache.QueryCache.PopAll | src-tauri/src/cache.rs:268-270 | Popping a list of keys leaves the entries whose keys are not in the list, in LRU order; the counters are unchanged |
| Cache.CollectExpired | src-tauri/src/cache.rs:261-265 | The loop collects the keys of the expired entries |
| Cache.ExpiredKeys | src-tauri/src/cache.rs:261-265 | A key is collected exactly when some entry with that key has expired |
| Cache.WithoutKeysMembers | src-tauri/src/cache.rs:268-270 | After the pops, an entry remains exactly when its key was not popped |
| Cache.PopRemovesKey | src-tauri/src/cache.rs:268-270 | Popping a key that exactly one entry holds removes exactly that entry |
| Cache.EvictMatchesUnexpired | src-tauri/src/cache.rs:259-275 | Popping the collected expired keys leaves exactly the unexpired entries in LRU order |
| Cache.LruEvictsOldest | src-tauri/src/cache.rs:386-420 | With capacity 3, a fourth distinct key evicts the first one and keeps three entries |
| Cache.MissPutHitStats | src-tauri/src/cache.rs:366-385 | A miss, then a put, then a hit give 1 hit, 1 miss and a 50% hit rate |
| Cache.ClearThenMiss | src-tauri/src/cache.rs:354-365 | After clearing, every get misses and the miss count restarts at one |
| Warmup.NewTask | src-tauri/src/cache/warmup.rs:35-50 | A new task uses the default processing configuration and keeps its other fields |
| Warmup.TaskWithConfig | src-tauri/src/cache/warmup.rs:53-69 | A task with an explicit processing configuration keeps it |
| Warmup.ToCacheKeyFacts | src-tauri/src/cache/warmup.rs:74-82 | Tasks that differ only in tag order warm the same cache key |
| Warmup.UpdateProgressFacts | src-tauri/src/cache/warmup.rs:114-126 | An update counts one completed task and one success or one failure, and keeps the progress invariant. Once all tasks are complete it marks done with no current task; before that it shows the task |
| Warmup.PercentageBounds | src-tauri/src/cache/warmup.rs:129-135 | The percentage is 100 for no tasks, lies between 0 and 100, and is 100 when all tasks are complete |
| Warmup.ProgressExample | src-tauri/src/cache/warmup.rs:344-356 | A fresh progress of 10 tasks is at 0%; one success puts it at 10% |
| Warmup.ProgressFailureExample | src-tauri/src/cache/warmup.rs:344-356 | A success then a failure give 2 completed, 1 success and 1 failure |
| Warmup.WarmupProgress.constructor | src-tauri/src/cache/warmup.rs:103-112 | A new progress has nothing completed and is not done |
| Warmup.WarmupProgress.Update | src-tauri/src/cache/warmup.rs:114-126 | Changes the fields as the update step says |
| Warmup.TaskStepFacts | src-tauri/src/cache/warmup.rs:179-208 | One task keeps the cache valid and the progress invariant, and completes one task; it fails only if its fetch fails |
| Warmup.RunTasksFacts | src-tauri/src/cache/warmup.rs:173-215 | Running tasks completes each one, keeps both invariants, and fails no more often than the fetches do |
| Warmup.WarmupRunFacts | src-tauri/src/cache/warmup.rs:164-215 | A whole warm-up completes every task; successes plus failures equal the task count; it ends done at 100% |
| Warmup.WarmupWithoutFailures | src-tauri/src/cache/warmup.rs:193-204 | If every fetch succeeds, every task counts as a success |
| Warmup.WarmedTaskHits | src-tauri/src/cache/warmup.rs:179-199 | After a task is warmed, a query for its key within the lifetime hits and returns the fetched data |
| Warmup.CacheWarmer.constructor | src-tauri/src/cache/warmup.rs:148-153 | The warmer works on the given cache |
| Warmup.CacheWarmer.Warmup | src-tauri/src/cache/warmup.rs:164-215 | The new cache state and the returned progress are those of the warm-up run |
| Warmup.RecentTasks | src-tauri/src/cache/warmup.rs:256-284 | One task per day, for the given number of days |
| Warmup.GenerateRecentTasks | src-tauri/src/cache/warmup.rs:256-284 | The loop builds exactly those tasks |
| Warmup.RecentTasksTile | src-tauri/src/cache/warmup.rs:262-281 | Consecutive days meet (each day starts where the next one ends); the tasks carry the tags and the default configuration; the first day ends at today's midnight |
| Warmup.AddTask | src-tauri/src/cache/warmup.rs:303-306 | Adding a task appends it |
| Warmup.StrategyExamples | src-tauri/src/cache/warmup.rs:358-390 | Three days give three tasks; two added tasks are kept in order |
| Native.RemoveOutliers | src-tauri/src/processing/native.rs:10-33 | Fewer than 3 records pass through unchanged. Otherwise the result is the order-preserving subsequence of records within the mean plus or minus 3 population standard deviations |
| Native.InBandOnlyFilters | src-tauri/src/processing/native.rs:27-30 | The filter keeps exactly the in-band records, in order |
| Native.NothingRemovedFromTen | src-tauri/src/processing/native.rs:10-33 | With 10 records or fewer nothing is ever removed (Samuelson's inequality) |
| Native.SpikeRemoved | src-tauri/src/processing/native.rs:186-200 | The source's test data (10..19 plus a spike of 1000) loses the spike |
| Native.WindowStart | src-tauri/src/processing/native.rs:45-55 | The window start is a multiple of the interval. It is computed with truncating division, so for times at or after the epoch it is the floor |
| Native.WindowZeroSpansTwoIntervals | src-tauri/src/processing/native.rs:55 | Truncation sends -500 ms and 500 ms to the same window |
| Native.StartsFacts | src-tauri/src/processing/native.rs:46-67 | The window keys are distinct. A key is listed exactly when its window is occupied. Every parsed record's key is listed |
| Native.StartsAreMultiples | src-tauri/src/processing/native.rs:55-64 | Every window key is a multiple of the interval |
| Native.Windows | src-tauri/src/processing/native.rs:46-67 | There are no more windows than records, and no window is empty |
| Native.Resampled | src-tauri/src/processing/native.rs:37-94 | The result is sorted by time text, has as many records as there are occupied windows (no more than the input), and is a permutation of the window records, one per occupied window |
| Native.ResampleData | src-tauri/src/processing/native.rs:37-94 | The loop and the sort compute the resampled records |
| Native.ResampledRecordIsWindowMean | src-tauri/src/processing/native.rs:70-88 | Each output record is the window-start time, the first member's name and quality, and the mean value of a non-empty window |
| Native.ResampledHasEveryWindow | src-tauri/src/processing/native.rs:70-88 | Every occupied window is in the output: its start time, the first member's name and quality, and the mean of exactly its records |
| Native.ResampledKeepsTag | src-tauri/src/processing/native.rs:81-86 | Resampling one tag's records yields only that tag |
| Native.WindowCountBound | src-tauri/src/processing/native.rs:44-67 | Times within [lo, hi] occupy at most hi/m - lo/m + 1 windows |
| Native.TenMinutesInTwoMinuteWindows | src-tauri/src/processing/native.rs:209-215 | Ten one-minute records in 120-second windows give at most 6 records |
| Native.Smoothed | src-tauri/src/processing/native.rs:97-125 | Same length; the input is returned unchanged when it is shorter than the window or the window is below 2. Otherwise each value is the mean of the values from `i - window/2` (saturating at 0) up to `i + window/2` (capped at the end), and nothing else about the record changes |
| Native.SmoothData | src-tauri/src/processing/native.rs:97-125 | The loop computes the smoothed records |
| Native.SmoothingStaysInRange | src-tauri/src/processing/native.rs:105-112 | Smoothed values stay within any bounds of the input values |
| Native.SmoothingKeepsConstant | src-tauri/src/processing/native.rs:105-122 | A constant series is unchanged |
| Native.NeighbourhoodWidth | src-tauri/src/processing/native.rs:107-108 | Away from the ends the neighbourhood is window+1 wide for an even window and window wide for an odd one |
| Native.EveryNth | src-tauri/src/processing/native.rs:154-159 | Keeps exactly the records at the multiples of the step; the count is the ceiling of the size divided by the step |
| Native.EveryNthSubsequence | src-tauri/src/processing/native.rs:155-159 | Thinning keeps an order-preserving subsequence |
| Native.Thinned | src-tauri/src/processing/native.rs:149-160 | A tag at or under the cap is kept whole; otherwise every step-th record is kept, with step = size / cap (floor) |
| Native.ThinnedSize | src-tauri/src/processing/native.rs:149-160 | A thinned tag keeps fewer than twice the cap, and exactly the cap when the size is a multiple of it |
| Native.Downsampled | src-tauri/src/processing/native.rs:128-167 | The result is sorted by time text, and empty for empty input |
| Native.Downsample | src-tauri/src/processing/native.rs:128-167 | The grouping loop, the thinning and the sort compute the downsampled records |
| Native.AppendEveryNth | src-tauri/src/processing/native.rs:155-159 | The inner loop appends exactly the thinned group |
| Native.DownsampledPerTag | src-tauri/src/processing/native.rs:136-161 | Each tag's output is a permutation of that tag's thinned records |
| Native.DownsampledKeepsOnlyInputRecords | src-tauri/src/processing/native.rs:128-167 | The output is a sub-multiset of the input |
| Native.DownsampledOneTag | src-tauri/src/processing/native.rs:136-161 | With a single tag, the output size is that tag's thinned size |
| Native.HundredRecordsToTen | src-tauri/src/processing/native.rs:217-222 | 100 records of one tag with a cap of 10 give 10 records |
| Native.FifteenRecordsExceedCapOfTen | src-tauri/src/processing/native.rs:149-160 | 15 records of one tag with a cap of 10 give 15 records (step 1), above the cap |
| Models.SortByDateTime | src-tauri/src/processing/mod.rs:44 | The stable sort by time text returns a sorted permutation of its input |
| Processing.ProcessedTag | src-tauri/src/processing/mod.rs:50-71 | A tag's stages never add records; with every stage switched off the records are unchanged |
| Processing.ProcessTagData | src-tauri/src/processing/mod.rs:50-71 | Runs the stages in order: outliers, then resampling when the interval is positive, then smoothing when the window exceeds 1 |
| Processing.ProcessedTagKeepsTag | src-tauri/src/processing/mod.rs:50-71 | Processing one tag's records yields only that tag |
| Processing.ProcessedTagEmpty | src-tauri/src/processing/mod.rs:50-71 | An empty group stays empty |
| Processing.ProcessedGroups | src-tauri/src/processing/mod.rs:28-41 | One processed group per distinct tag, each the processing of that tag's records |
| Processing.ProcessedData | src-tauri/src/processing/mod.rs:19-47 | The result is sorted by time text, and empty for empty input |
| Processing.ProcessData | src-tauri/src/processing/mod.rs:19-47 | The grouping loop, the per-tag stages and the sort compute the processed records |
| Processing.ProcessedDataPerTag | src-tauri/src/processing/mod.rs:27-41 | Each tag's output is a permutation of that tag's processed records |
| Processing.ProcessedDataDisabledSorts | src-tauri/src/processing/mod.rs:19-47 | With every stage switched off, processing only reorders the records |
| Processing.ProcessedQueryResult | src-tauri/src/processing/mod.rs:77-108 | The final result is sorted by time text |
| Processing.ProcessQueryResult | src-tauri/src/processing/mod.rs:77-108 | Computes the processed query result |
| Processing.NoConfigOnlyDownsamples | src-tauri/src/processing/mod.rs:102-107 | Without a configuration only downsampling applies: the output is drawn from the input, and a tag at or under 5000 points is kept whole |
| Processing.SmallInputsIgnorePolars | src-tauri/src/processing/mod.rs:85-101 | Inputs of 1000 records or fewer never use the Polars pipeline |
| Processing.PolarsFailureFallsBack | src-tauri/src/processing/mod.rs:86-96 | A failed Polars run falls back to the native pipeline, then downsamples |
| Processing.Points | src-tauri/src/processing/mod.rs:115-123 | One point per record, in order: its value is the record's value, its timestamp the parsed time text, or 0 when that does not parse |
| Processing.Series | src-tauri/src/processing/mod.rs:111-137 | One series per distinct tag, sorted by tag name |
| Processing.RecordsToSeries | src-tauri/src/processing/mod.rs:111-137 | The grouping loop and the sorts compute the series |
| Processing.SeriesFacts | src-tauri/src/processing/mod.rs:111-137 | Series tags are distinct and are exactly the input tags. Each series is sorted by timestamp and is a permutation of that tag's points |
| Processing.OneTagOneSeries | src-tauri/src/processing/mod.rs:182-189 | Records of one tag give a single series of that tag with every record in it |
| Services.Paginate | src-tauri/src/services/query_service.rs:197-208 | Pagination skips `offset` records, then keeps at most `limit`, in order |
| Services.PaginateIsSlice | src-tauri/src/services/query_service.rs:197-208 | A page is the slice [offset, offset+limit) clipped to the records |
| Services.PagesConcatenate | src-tauri/src/services/query_service.rs:197-208 | Two adjacent pages concatenate to the page spanning both |
| Services.PaginationExample | src-tauri/src/services/query_service.rs:216-243 | On 10 records: no pagination gives 10, limit 5 gives 5, offset 3 gives 7, and offset 2 with limit 3 gives records 2..4 |
| Services.QueryKeepsCacheValid | src-tauri/src/services/query_service.rs:59-193 | Both query forms change the cache identically and keep it valid; a query counts one cache lookup unless it is forced |
| Services.ForceRefreshFetches | src-tauri/src/services/query_service.rs:116-193 | A forced query skips the lookup, reports no hit, returns the series of the processed fetch with both counts, and stores the processed records |
| Services.HitAnswersFromCache | src-tauri/src/services/query_service.rs:76-154 | On a hit the source is not consulted. The first form returns the paginated cached records and their count; the second returns their series, with the cached count as both counts, and a hit flag |
| Services.MissStoresProcessed | src-tauri/src/services/query_service.rs:89-112 | On a miss the processed records are stored as the most recent entry; the result is their page, with the raw count as the total |
| Services.MissReportsBothCounts | src-tauri/src/services/query_service.rs:156-192 | A miss in the second form reports the raw and the processed counts, the series of the processed records, and no hit |
| Services.FetchErrorStoresNothing | src-tauri/src/services/query_service.rs:89-98 | A failed fetch returns its error and stores nothing; a forced query leaves the cache untouched |
| Services.RepeatedQueryHits | src-tauri/src/services/query_service.rs:59-193 | Repeating a query within the lifetime hits and returns what the first one computed. Its total becomes the processed count |
| Services.TagOrderSharesEntry | src-tauri/src/services/query_service.rs:65-74 | Queries whose tags differ only in order share one cache entry |
| Services.QueryService.constructor | src-tauri/src/services/query_service.rs:24-32 | The service keeps its source, its cache and its default table |
| Services.QueryService.FetchAndStore | src-tauri/src/services/query_service.rs:89-107 | Fetches, processes and stores as the fetch step says |
| Services.QueryService.CachedRecords | src-tauri/src/services/query_service.rs:76-87 | Looks up the cache unless forced |
| Services.QueryService.QueryHistory | src-tauri/src/services/query_service.rs:59-113 | The new cache state and the result are those of the history step |
| Services.QueryService.QueryHistoryV2 | src-tauri/src/services/query_service.rs:116-193 | The new cache state and the result are those of the grouped-history step |
| AppStateModel.SchemaProfileFor | src-tauri/src/state.rs:106-117 | Selects the registry's profile for a known name and the default profile otherwise |
| AppStateModel.SchemaProfileFallback | src-tauri/src/state.rs:106-117 | Any configured name ends up with the default profile |
| AppStateModel.AppState.constructor | src-tauri/src/state.rs:34-61 | A new state has an empty cache with the default settings and no pool or service |
| AppStateModel.AppState.InitPool | src-tauri/src/state.rs:64-77 | On success the pool is installed, with a new service over it, the shared cache and the default table. On failure the error is returned and nothing changes |
| AppStateModel.AppState.SchemaProfile | src-tauri/src/state.rs:106-117 | The profile selected for the configured name |
| AppStateModel.AppState.IsPoolInitialized | src-tauri/src/state.rs:120-122 | True exactly when the query service exists |
| AppStateModel.AppState.QueryServiceHandle | src-tauri/src/state.rs:91-103 | None before the pool exists; otherwise a new handle on the same pool, the shared cache and the same table |
| ProfileRegistry.Get | src-tauri/src/datasource/profiles/registry.rs:35-43 | Only "default" is found. Any other name gives a Config error that names it |
| ProfileRegistry.DefaultProfileOf | src-tauri/src/datasource/profiles/registry.rs:48-50 | The shortcut is the profile that `get("default")` returns |
| ProfileRegistry.GetMatchesAvailable | src-tauri/src/datasource/profiles/registry.rs:35-55 | A name is found exactly when it is listed as available. The error for an unknown name mentions it and is not retryable |
| DefaultSchema.TagSearchSql | src-tauri/src/datasource/profiles/default.rs:29-37 | The SQL selects TOP limit from [TagDataBase] with the LIKE @P1 filter, ordered by name |
| DefaultSchema.HistoryQuerySql | src-tauri/src/datasource/profiles/default.rs:39-60 | The SQL uses the escaped table WITH (NOLOCK) and the escaped time range, includes the tag filter verbatim, and orders by time |
| DefaultSchema.HistorySqlEscapes | src-tauri/src/datasource/profiles/default.rs:55-57 | The table and both times read back from their escaped forms |
| DefaultSchema.MapHistoryRow | src-tauri/src/datasource/profiles/default.rs:62-74 | Mapping never fails. Missing columns become "" or 0.0. The time is formatted. The name and quality are trimmed, and kept as they are when already trimmed |
| DefaultSchema.TrimmedText | src-tauri/src/datasource/profiles/default.rs:70-72 | A text column is trimmed, or "" when absent |
| SchemaProfile.EscapeRoundTrip | src-tauri/src/datasource/schema_profile.rs:80 | Doubling the delimiter can be undone, and leaves every delimiter doubled |
| SchemaProfile.UnescapeRoundTrip | src-tauri/src/datasource/schema_profile.rs:80 | Any text with its delimiters doubled is the escape of its unescaping |
| SchemaProfile.Delimit | src-tauri/src/datasource/schema_profile.rs:80 | A delimited text starts and ends with its delimiters, and the text between them is doubled and collapses back to the original. Quoted literals (quotes) and the bracketed table identifier of the default history query (brackets) are its two instances |
| SchemaProfile.ReadQuoted | src-tauri/src/datasource/schema_profile.rs:80 | A literal's body can be read back, up to its closing quote |
| SchemaProfile.QuotedListRoundTrip | src-tauri/src/datasource/schema_profile.rs:78-82 | The comma-joined list of quoted tags parses back to the tags |
| SchemaProfile.BuildTagFilter | src-tauri/src/datasource/schema_profile.rs:75-87 | The filter is empty exactly when there are no tags, and otherwise quotes every tag |
| SchemaProfile.TagFilterRoundTrip | src-tauri/src/datasource/schema_profile.rs:75-87 | A non-empty filter is `AND TagName IN (` + list + `)`, and the list parses back to the tags |
| ProcessingConfig.Default | src-tauri/src/models/processing.rs:57-66 | The default switches every stage off, with zero interval and window and empty method names |
| ProcessingConfig.WithOutlierRemoval | src-tauri/src/models/processing.rs:75-79 | The builder enables outlier removal with its method and leaves the other stages alone |
| ProcessingConfig.WithResample | src-tauri/src/models/processing.rs:82-87 | The builder enables resampling with its interval and method and leaves the other stages alone |
| ProcessingConfig.WithSmoothing | src-tauri/src/models/processing.rs:90-95 | The builder enables smoothing with its window and method and leaves the other stages alone |
| ProcessingConfig.DefaultAndFullChain | src-tauri/src/models/processing.rs:107-130 | The default has nothing enabled; the full builder chain sets all three stages |
| ProcessingConfig.BuildersEnableAndCommute | src-tauri/src/models/processing.rs:75-100 | Each builder enables some processing, and any two builders commute |
| Performance.ValidateCache | src-tauri/src/config/performance.rs:33-47 | Accepts exactly 10-1000 entries and 60-7200 s, and reports the first bound broken |
| Performance.ValidatePool | src-tauri/src/config/performance.rs:103-120 | Accepts exactly a size of 1-10, no more idle connections than the size, and a 5-60 s timeout, and reports the first bound broken |
| Performance.ValidateProcessing | src-tauri/src/config/performance.rs:157-162 | Accepts exactly a threshold of 1000 or more |
| Performance.ValidateChart | src-tauri/src/config/performance.rs:203-211 | Accepts exactly 500 <= large <= progressive |
| Performance.Validate | src-tauri/src/config/performance.rs:244-251 | Valid exactly when every part is valid; otherwise the first failing part's message, in the order cache, pool, processing, chart |
| Performance.PresetsAreValid | src-tauri/src/config/performance.rs:254-310 | The desktop preset is the default. All presets are valid. The high-performance and low-resource presets are scaled up and down from the default |
| Performance.DefaultValues | src-tauri/src/config/performance.rs:317-327 | The documented default values |
| Performance.ValidationRejectsOutOfRange | src-tauri/src/config/performance.rs:328-353 | Too few entries, too short a lifetime, a pool of size 0, or more idle connections than the size are rejected |
| TagGroups.NewChart | src-tauri/src/models/tag_group.rs:22-28 | A new chart has the name, no tags, and the id "c" + clock milliseconds |
| TagGroups.ChartWithId | src-tauri/src/models/tag_group.rs:31-37 | The chart keeps the given id and name and has no tags |
| TagGroups.WithTags | src-tauri/src/models/tag_group.rs:40-43 | Replaces the tags and keeps the id and name |
| TagGroups.ValidateChart | src-tauri/src/models/tag_group.rs:46-55 | Valid exactly when the chart has at most 5 tags; the message names the chart and the count |
| TagGroups.ValidateCharts | src-tauri/src/models/tag_group.rs:89-92 | Valid exactly when every chart is; otherwise the first invalid chart's message |
| TagGroups.ValidateGroup | src-tauri/src/models/tag_group.rs:80-92 | Checks in order: a blank name, then more than 10 charts, then each chart |
| TagGroups.BlankNameIsEmpty | src-tauri/src/models/tag_group.rs:233-237 | An all-white-space name is rejected as empty |
| TagGroups.NewGroup | src-tauri/src/models/tag_group.rs:80-105 | Succeeds exactly when validation does. It then has the trimmed name, the charts, the default configuration, both timestamps set to now, and the id "g" + milliseconds |
| TagGroups.GroupWithId | src-tauri/src/models/tag_group.rs:108-123 | Keeps the given fields, with the default configuration |
| TagGroups.Update | src-tauri/src/models/tag_group.rs:126-153 | Succeeds exactly when validation does. It then keeps the id and creation time, sets the trimmed name and the charts, replaces the configuration only when one is given, and stamps the update time |
| TagGroups.UpdateAgreesWithNew | src-tauri/src/models/tag_group.rs:126-153 | An update validates and normalises exactly as creation does |
| TagGroups.AllTagsFacts | src-tauri/src/models/tag_group.rs:156-165 | The tags of all charts, strictly ascending, each appearing once, and exactly those |
| TagGroups.AllTagsMergesOverlap | src-tauri/src/models/tag_group.rs:239-250 | [tag1, tag2] and [tag2, tag3] merge to [tag1, tag2, tag3] |
| TagGroups.NewConfig | src-tauri/src/models/tag_group.rs:180-185 | A new configuration is version 1 with no groups |
| TagGroupStore.Position | src-tauri/src/config/tag_groups.rs:299-304 | The index of the first group with the id, or none when no group has it |
| TagGroupStore.CreateFacts | src-tauri/src/config/tag_groups.rs:246-261 | A taken name or an invalid group is rejected and nothing changes. Otherwise the group is appended even if saving fails, and the result reports the save |
| TagGroupStore.CreateKeepsNamesDistinct | src-tauri/src/config/tag_groups.rs:246-261 | Creation keeps group names distinct |
| TagGroupStore.UpdateFacts | src-tauri/src/config/tag_groups.rs:264-295 | A name taken by another group, an unknown id, or an invalid update is rejected and nothing changes. Otherwise only the first group with the id is replaced and the result reports the save |
| TagGroupStore.UpdateKeepsNamesDistinct | src-tauri/src/config/tag_groups.rs:264-295 | Updates keep names and ids distinct |
| TagGroupStore.DeleteFacts | src-tauri/src/config/tag_groups.rs:298-311 | An unknown id gives NotFound. Otherwise exactly the first group with the id is removed, the others stay in order, and the result reports the save |
| TagGroupStore.DeleteKeepsDistinct | src-tauri/src/config/tag_groups.rs:298-311 | Deletion keeps names and ids distinct |
| TagGroupStore.TagGroupConfigManager.constructor | src-tauri/src/config/tag_groups.rs:317-322 | A manager over a new configuration: version 1, no groups |
| TagGroupStore.TagGroupConfigManager.GetGroup | src-tauri/src/config/tag_groups.rs:236-238 | The first group with the id, or none when there is none |
| TagGroupStore.TagGroupConfigManager.FindGroup | src-tauri/src/config/tag_groups.rs:241-243 | The loop finds the first index with the id |
| TagGroupStore.TagGroupConfigManager.CreateGroup | src-tauri/src/config/tag_groups.rs:246-261 | The new groups and the result are those of the create step |
| TagGroupStore.TagGroupConfigManager.UpdateGroup | src-tauri/src/config/tag_groups.rs:264-295 | The new groups and the result are those of the update step |
| TagGroupStore.TagGroupConfigManager.DeleteGroup | src-tauri/src/config/tag_groups.rs:298-311 | The new groups and the result are those of the delete step |

## Left out

- **The Polars pipeline**
  (`src-tauri/src/processing/polars_impl.rs`). It is a parameter that
  returns records or fails. Only its use in `process_query_result` is
  modelled: over 1000 records, falling back to the native pipeline on
  failure.
- **The connection pool and the database driver.** The history query is
  a parameter that returns records or an error. Pool sizing, timeouts and
  connections themselves are not modelled.
- **Query service pass-throughs.** `get_available_tags`, `search_tags`
  and `test_connection` only forward to the data source, so they are not
  modelled.
- **Concurrency.** The cache's locks, the async tasks and the background
  task that evicts expired entries every 60 seconds are not modelled. Each
  operation is one atomic step, and `create_cache_with_cleanup` is left
  out.
- **Clocks.** `Instant::now`, `Local::now` and elapsed time are
  parameters in milliseconds.
- **Time text.** chrono parsing, formatting, the local time zone and the
  two accepted formats are one abstract parse/format pair.
- **Floating point.** `f64` and `f32` are exact reals, so rounding and the
  `f32` to `f64` widening of the value column are not modelled. Square
  roots are avoided by comparing squared deviations with 9 times the
  variance.
- **The processing-configuration hash.** It is replaced by the
  configuration itself, so hash collisions are not modelled.
- **HashMap order.** The source iterates groups in HashMap order, which
  is unspecified. The model uses first-appearance order. The properties
  about the order (sorted outputs, permutations per tag) hold for any
  grouping order.
- **Tag-group configuration file I/O.** Paths, load, migration, reload
  and TOML are not modelled. The outcome of `save` is a parameter, and
  the in-memory change happens before it, as in the source.
- **Other services.** Logging, Tauri commands (IPC), the configuration
  watcher and hot reload, and the tag-group service are not modelled.
  The profile name is a constant of the state, and the default table is
  a parameter of `init_pool`.
- **Warm-up progress channel.** The progress messages sent over the
  channel are not modelled.
- AppStateModel.AppState.QueryServiceHandle: the handle is modelled
  as a `QueryService` over the same pool. The schema profile it selects
  does not change the modelled history query, so the profile's effect on
  the SQL of the handle is not captured.
- Cache.QueryCache.PopAll: it computes the pops on a copy of the LRU
  order and stores the result. Popping in place is not modelled.
- TagGroups.Update: `TagGroup::update` works in place (`&mut self`).
  It is modelled on values, and the manager writes the updated group
  back.
- **Column type mismatches.** The driver's typed column read panics when
  a column holds a value of another type than the one asked for. The
  model's rows carry only typed or NULL columns, so that panic is not
  captured.
- **Integer widths.** Widths (`usize`, `u32`, `u64`) are unbounded, so
  counter overflow is not modelled.

Where the code and its documentation disagree, the model follows the
code:

- Outlier removal passes through only when there are fewer than 3
  records, and it uses the population standard deviation.
- Resampling windows are aligned to the epoch, with truncating division,
  not to the query's start time.
- The downsampling step is `count / max` rounded down. The result can
  exceed the cap by nearly a factor of two, and the last point is not
  always kept.
- Cache keys do not remove duplicate tags.
- Row mapping never returns an error: a NULL column reads as absent
  and gets its default.
