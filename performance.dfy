/**
 * The performance configuration: limits for the query cache, the
 * connection pool, data processing and chart rendering, each with its
 * defaults and its range check, and the two presets beside the default.
 */
module Performance {
  import opened Checks

  // ---------------------------------------------------------------------
  // Cache
  // ---------------------------------------------------------------------

  /** `CachePerformanceConfig`. */
  datatype CachePerformanceConfig = CachePerformanceConfig(maxEntries: nat, ttlSeconds: nat, warmupEnabled: bool)

  /** `CachePerformanceConfig::default()`: 200 entries for 30 minutes, no warm-up. */
  const DefaultCache := CachePerformanceConfig(200, 1800, false)

  const MinEntriesMsg: string := "max_entries 最小值为 10"
  const MaxEntriesMsg: string := "max_entries 最大值为 1000"
  const MinTtlMsg: string := "ttl_seconds 最小值为 60 秒"
  const MaxTtlMsg: string := "ttl_seconds 最大值为 7200 秒（2小时）"

  /**
   * `validate`: at least 10 and at most 1000 entries, a lifetime of one
   * minute to two hours; the first bound broken is reported.
   */
  function ValidateCache(c: CachePerformanceConfig): (r: Verdict)
    ensures r.Accept? <==> 10 <= c.maxEntries <= 1000 && 60 <= c.ttlSeconds <= 7200
    ensures c.maxEntries < 10 ==> r == Reject(MinEntriesMsg)
    ensures c.maxEntries > 1000 ==> r == Reject(MaxEntriesMsg)
    ensures 10 <= c.maxEntries <= 1000 && c.ttlSeconds < 60 ==> r == Reject(MinTtlMsg)
    ensures 10 <= c.maxEntries <= 1000 && c.ttlSeconds > 7200 ==> r == Reject(MaxTtlMsg)
  {
    if c.maxEntries < 10 then Reject(MinEntriesMsg)
    else if c.maxEntries > 1000 then Reject(MaxEntriesMsg)
    else if c.ttlSeconds < 60 then Reject(MinTtlMsg)
    else if c.ttlSeconds > 7200 then Reject(MaxTtlMsg)
    else Accept
  }

  // ---------------------------------------------------------------------
  // Connection pool
  // ---------------------------------------------------------------------

  /** `PoolPerformanceConfig`; the two timeouts at the end are not checked. */
  datatype PoolPerformanceConfig = PoolPerformanceConfig(
    maxSize: nat, minIdle: nat, connectionTimeoutSecs: nat, idleTimeoutSecs: nat, maxLifetimeSecs: nat)

  /** `PoolPerformanceConfig::default()`. */
  const DefaultPool := PoolPerformanceConfig(3, 1, 15, 300, 900)

  const MinSizeMsg: string := "max_size 最小值为 1"
  const MaxSizeMsg: string := "max_size 最大值为 10（桌面应用场景）"
  const IdleAboveSizeMsg: string := "min_idle 不能大于 max_size"
  const MinTimeoutMsg: string := "connection_timeout_secs 最小值为 5 秒"
  const MaxTimeoutMsg: string := "connection_timeout_secs 最大值为 60 秒"

  /**
   * `validate`: one to ten connections, no more idle ones than that, and
   * a connection timeout of 5 to 60 seconds; the first bound broken is
   * reported.
   */
  function ValidatePool(c: PoolPerformanceConfig): (r: Verdict)
    ensures r.Accept? <==> 1 <= c.maxSize <= 10 && c.minIdle <= c.maxSize && 5 <= c.connectionTimeoutSecs <= 60
    ensures c.maxSize < 1 ==> r == Reject(MinSizeMsg)
    ensures c.maxSize > 10 ==> r == Reject(MaxSizeMsg)
    ensures 1 <= c.maxSize <= 10 && c.minIdle > c.maxSize ==> r == Reject(IdleAboveSizeMsg)
    ensures 1 <= c.maxSize <= 10 && c.minIdle <= c.maxSize && c.connectionTimeoutSecs < 5 ==> r == Reject(MinTimeoutMsg)
    ensures 1 <= c.maxSize <= 10 && c.minIdle <= c.maxSize && c.connectionTimeoutSecs > 60 ==> r == Reject(MaxTimeoutMsg)
  {
    if c.maxSize < 1 then Reject(MinSizeMsg)
    else if c.maxSize > 10 then Reject(MaxSizeMsg)
    else if c.minIdle > c.maxSize then Reject(IdleAboveSizeMsg)
    else if c.connectionTimeoutSecs < 5 then Reject(MinTimeoutMsg)
    else if c.connectionTimeoutSecs > 60 then Reject(MaxTimeoutMsg)
    else Accept
  }

  // ---------------------------------------------------------------------
  // Data processing and charts
  // ---------------------------------------------------------------------

  /** `ProcessingPerformanceConfig`. */
  datatype ProcessingPerformanceConfig = ProcessingPerformanceConfig(useUnifiedPipeline: bool, largeDatasetThreshold: nat)

  /** `ProcessingPerformanceConfig::default()`. */
  const DefaultProcessing := ProcessingPerformanceConfig(true, 10000)

  const MinDatasetMsg: string := "large_dataset_threshold 最小值为 1000"

  /** `validate`: a large data set starts at 1000 records or more. */
  function ValidateProcessing(c: ProcessingPerformanceConfig): (r: Verdict)
    ensures r.Accept? <==> c.largeDatasetThreshold >= 1000
    ensures r.Reject? ==> r.reason == MinDatasetMsg
  {
    if c.largeDatasetThreshold < 1000 then Reject(MinDatasetMsg) else Accept
  }

  /** `ChartPerformanceConfig`. */
  datatype ChartPerformanceConfig = ChartPerformanceConfig(useDirtyRect: bool, largeThreshold: nat, progressiveThreshold: nat)

  /** `ChartPerformanceConfig::default()`. */
  const DefaultChart := ChartPerformanceConfig(true, 2000, 3000)

  const MinLargeMsg: string := "large_threshold 最小值为 500"
  const ProgressiveBelowMsg: string := "progressive_threshold 应大于等于 large_threshold"

  /**
   * `validate`: the large-data threshold is at least 500 and progressive
   * rendering starts no earlier than it.
   */
  function ValidateChart(c: ChartPerformanceConfig): (r: Verdict)
    ensures r.Accept? <==> 500 <= c.largeThreshold <= c.progressiveThreshold
    ensures c.largeThreshold < 500 ==> r == Reject(MinLargeMsg)
    ensures 500 <= c.largeThreshold && c.progressiveThreshold < c.largeThreshold ==> r == Reject(ProgressiveBelowMsg)
  {
    if c.largeThreshold < 500 then Reject(MinLargeMsg)
    else if c.progressiveThreshold < c.largeThreshold then Reject(ProgressiveBelowMsg)
    else Accept
  }

  // ---------------------------------------------------------------------
  // The whole configuration
  // ---------------------------------------------------------------------

  /** `PerformanceConfig`. */
  datatype PerformanceConfig = PerformanceConfig(
    cache: CachePerformanceConfig, pool: PoolPerformanceConfig,
    processing: ProcessingPerformanceConfig, chart: ChartPerformanceConfig)

  /**
   * `validate`: every part valid; otherwise the first part's failure in
   * the order cache, pool, processing, chart.
   */
  function Validate(c: PerformanceConfig): (r: Verdict)
    ensures r.Accept? <==>
      ValidateCache(c.cache).Accept? && ValidatePool(c.pool).Accept?
      && ValidateProcessing(c.processing).Accept? && ValidateChart(c.chart).Accept?
    ensures ValidateCache(c.cache).Reject? ==> r == ValidateCache(c.cache)
    ensures ValidateCache(c.cache).Accept? && ValidatePool(c.pool).Reject? ==> r == ValidatePool(c.pool)
    ensures ValidateCache(c.cache).Accept? && ValidatePool(c.pool).Accept? && ValidateProcessing(c.processing).Reject?
      ==> r == ValidateProcessing(c.processing)
    ensures ValidateCache(c.cache).Accept? && ValidatePool(c.pool).Accept? && ValidateProcessing(c.processing).Accept?
      ==> r == ValidateChart(c.chart)
  {
    if ValidateCache(c.cache).Reject? then ValidateCache(c.cache)
    else if ValidatePool(c.pool).Reject? then ValidatePool(c.pool)
    else if ValidateProcessing(c.processing).Reject? then ValidateProcessing(c.processing)
    else ValidateChart(c.chart)
  }

  /** `PerformanceConfig::default()`, which `for_desktop` also returns. */
  function Default(): PerformanceConfig {
    PerformanceConfig(DefaultCache, DefaultPool, DefaultProcessing, DefaultChart)
  }

  /** `for_desktop`. */
  function ForDesktop(): PerformanceConfig {
    Default()
  }

  /** `high_performance`: a larger cache kept longer and warmed up, a larger pool, lower thresholds. */
  function HighPerformance(): PerformanceConfig {
    PerformanceConfig(
      CachePerformanceConfig(500, 3600, true),
      PoolPerformanceConfig(5, 2, 10, 600, 1800),
      ProcessingPerformanceConfig(true, 5000),
      ChartPerformanceConfig(true, 1000, 2000))
  }

  /** `low_resource`: a small cache without warm-up, one connection, higher thresholds. */
  function LowResource(): PerformanceConfig {
    PerformanceConfig(
      CachePerformanceConfig(50, 600, false),
      PoolPerformanceConfig(1, 0, 30, 120, 300),
      ProcessingPerformanceConfig(true, 20000),
      ChartPerformanceConfig(true, 5000, 8000))
  }

  /**
   * The default and both presets pass their own check, and the presets
   * scale the default up and down: more cache entries, connections and
   * warm-up for high performance; fewer entries, one connection and no
   * warm-up for low resource use.
   */
  lemma PresetsAreValid()
    ensures ForDesktop() == Default()
    ensures Validate(Default()).Accept? && ValidateCache(DefaultCache).Accept? && ValidatePool(DefaultPool).Accept?
    ensures Validate(HighPerformance()).Accept? && Validate(LowResource()).Accept?
    ensures HighPerformance().cache.maxEntries > Default().cache.maxEntries > LowResource().cache.maxEntries
    ensures HighPerformance().pool.maxSize > Default().pool.maxSize > LowResource().pool.maxSize == 1
    ensures HighPerformance().cache.warmupEnabled && !Default().cache.warmupEnabled && !LowResource().cache.warmupEnabled
  {
  }

  /**
   * The values the defaults are documented with: a cache of 200 entries
   * for 1800 s, a pool of 3 with a 15 s timeout, the unified pipeline and
   * dirty-rectangle rendering on.
   */
  lemma DefaultValues()
    ensures var c := Default();
      && c.cache.maxEntries == 200 && c.cache.ttlSeconds == 1800
      && c.pool.maxSize == 3 && c.pool.minIdle == 1 && c.pool.connectionTimeoutSecs == 15
      && c.processing.useUnifiedPipeline && c.chart.useDirtyRect
  {
  }

  /**
   * The range checks applied to edits of a default: too few cache entries
   * or too short a lifetime is refused, and so are a pool of size 0 and
   * more idle connections than the pool holds.
   */
  lemma ValidationRejectsOutOfRange(entries: nat, ttl: nat, size: nat, idle: nat)
    ensures entries < 10 ==> ValidateCache(DefaultCache.(maxEntries := entries)) == Reject(MinEntriesMsg)
    ensures ttl < 60 ==> ValidateCache(DefaultCache.(ttlSeconds := ttl)) == Reject(MinTtlMsg)
    ensures ValidatePool(DefaultPool.(maxSize := 0)) == Reject(MinSizeMsg)
    ensures 1 <= size <= 10 && idle > size ==> ValidatePool(DefaultPool.(maxSize := size, minIdle := idle)).Reject?
  {
  }
}
