/**
 * Query orchestration: a history query builds its cache key, looks the
 * key up unless a refresh is forced, and on a miss fetches the raw
 * records, processes them, stores the processed records and answers
 * from them. The V1 answer is a page of records; the V2 answer is the
 * records regrouped into chart series.
 *
 * The database is the function `HistorySource`; the clock is the `now`
 * of the lookup and the store and the measured `elapsedMs` of a V2
 * answer, both passed in.
 */
module Services {
  import opened Wrappers
  import opened Models
  import opened Errors
  import opened ProcessingConfig
  import opened Cache
  import opened Processing
  import opened Grouping

  /** `DataSource::query_history`: the raw records of a table, a time range and an optional tag filter. */
  type HistorySource = (string, string, string, Option<seq<string>>) -> Result<seq<HistoryRecord>>

  // ---------------------------------------------------------------------
  // Pagination
  // ---------------------------------------------------------------------

  /** `skip(n)`: everything after the first `n` items. */
  function Skip<T>(s: seq<T>, n: nat): (r: seq<T>)
    ensures |r| == if n <= |s| then |s| - n else 0
    ensures forall i :: 0 <= i < |r| ==> r[i] == s[n + i]
  {
    if n <= |s| then s[n..] else []
  }

  /** `take(n)`: at most the first `n` items. */
  function Take<T>(s: seq<T>, n: nat): (r: seq<T>)
    ensures |r| == if n <= |s| then n else |s|
    ensures forall i :: 0 <= i < |r| ==> r[i] == s[i]
  {
    if n <= |s| then s[..n] else s
  }

  /**
   * `apply_pagination`: skip `offset` records when it is given, then take
   * `limit` records when it is given.
   */
  function Paginate<T>(records: seq<T>, offset: Option<nat>, limit: Option<nat>): (r: seq<T>)
    ensures var off := offset.GetOr(0);
      && |r| == (var rest := if off <= |records| then |records| - off else 0;
                 if limit.Some? && limit.value < rest then limit.value else rest)
      && forall i :: 0 <= i < |r| ==> r[i] == records[off + i]
  {
    match (offset, limit)
    case (Some(o), Some(l)) => Take(Skip(records, o), l)
    case (Some(o), None) => Skip(records, o)
    case (None, Some(l)) => Take(records, l)
    case (None, None) => records
  }

  /** A page is the slice `records[min(off, len) .. min(off + lim, len)]`. */
  lemma PaginateIsSlice<T>(records: seq<T>, offset: Option<nat>, limit: Option<nat>)
    ensures var len := |records|;
      var lo := if offset.GetOr(0) <= len then offset.GetOr(0) else len;
      var hi := if limit.Some? && lo + limit.value <= len then lo + limit.value else len;
      Paginate(records, offset, limit) == records[lo..hi]
  {
  }

  /** Consecutive pages put together give the page that spans both. */
  lemma PagesConcatenate<T>(records: seq<T>, offset: nat, a: nat, b: nat)
    ensures Paginate(records, Some(offset), Some(a)) + Paginate(records, Some(offset + a), Some(b))
      == Paginate(records, Some(offset), Some(a + b))
  {
    var p := Paginate(records, Some(offset), Some(a));
    var q := Paginate(records, Some(offset + a), Some(b));
    var w := Paginate(records, Some(offset), Some(a + b));
    assert |p + q| == |w|;
    forall i | 0 <= i < |w| ensures (p + q)[i] == w[i] {
      if i >= |p| {
        assert (p + q)[i] == q[i - |p|];
      }
    }
  }

  /** Ten records: no paging keeps 10, limit 5 keeps 5, offset 3 keeps 7, offset 2 with limit 3 keeps 3. */
  lemma PaginationExample(records: seq<HistoryRecord>)
    requires |records| == 10
    ensures Paginate(records, None, None) == records
    ensures |Paginate(records, None, Some(5))| == 5
    ensures |Paginate(records, Some(3), None)| == 7
    ensures Paginate(records, Some(2), Some(3)) == records[2..5]
  {
    PaginateIsSlice(records, Some(2), Some(3));
  }

  // ---------------------------------------------------------------------
  // The query protocol over the cache
  // ---------------------------------------------------------------------

  /** The key a query is cached under. */
  function QueryKey(table: string, params: QueryParams, config: Option<DataProcessingConfig>): CacheKey {
    NewCacheKey(table, params.startTime, params.endTime, params.tags, config)
  }

  /** The cache lookup of a query: none when a refresh is forced, otherwise `get`. */
  function Lookup(st: CacheState, key: CacheKey, forceRefresh: bool, now: int): (CacheState, Option<seq<HistoryRecord>>) {
    if forceRefresh then (st, None) else GetStep(st, key, now)
  }

  /**
   * The miss path shared by both formats: the raw records are fetched
   * (a fetch error is returned as it is and nothing is stored), processed,
   * and the processed records are stored under the key. On success the
   * raw and the processed records are returned.
   */
  function Fetched(st: CacheState, capacity: nat, ttlMs: nat, table: string, params: QueryParams,
                   config: Option<DataProcessingConfig>, source: HistorySource, time: TimeText,
                   polars: PolarsPipeline, now: int): (CacheState, Result<(seq<HistoryRecord>, seq<HistoryRecord>)>)
    requires capacity > 0
  {
    match source(table, params.startTime, params.endTime, params.tags)
    case Err(e) => (st, Err(e))
    case Ok(raw) =>
      var processed := ProcessedQueryResult(raw, config, time, polars);
      (PutStep(st, capacity, QueryKey(table, params, config), processed, now, ttlMs), Ok((raw, processed)))
  }

  /**
   * `query_history`: on a hit the page of the cached records and their
   * number; on a miss the page of the processed records and the number of
   * raw records fetched.
   */
  function HistoryStep(st: CacheState, capacity: nat, ttlMs: nat, table: string, params: QueryParams,
                       config: Option<DataProcessingConfig>, forceRefresh: bool, source: HistorySource,
                       time: TimeText, polars: PolarsPipeline, now: int): (CacheState, Result<QueryResult>)
    requires capacity > 0
  {
    var (st1, cached) := Lookup(st, QueryKey(table, params, config), forceRefresh, now);
    if cached.Some? then
      (st1, Ok(QueryResult(Paginate(cached.value, params.offset, params.limit), |cached.value|)))
    else
      var (st2, fetched) := Fetched(st1, capacity, ttlMs, table, params, config, source, time, polars, now);
      match fetched
      case Err(e) => (st2, Err(e))
      case Ok((raw, processed)) => (st2, Ok(QueryResult(Paginate(processed, params.offset, params.limit), |raw|)))
  }

  /**
   * `query_history_v2`: on a hit the series of the cached records, with
   * both totals equal to their number; on a miss the series of the
   * processed records, the raw and the processed count.
   */
  function HistoryV2Step(st: CacheState, capacity: nat, ttlMs: nat, table: string, params: QueryParams,
                         config: Option<DataProcessingConfig>, forceRefresh: bool, source: HistorySource,
                         time: TimeText, polars: PolarsPipeline, now: int, elapsedMs: nat): (CacheState, Result<QueryResultV2>)
    requires capacity > 0
  {
    var (st1, cached) := Lookup(st, QueryKey(table, params, config), forceRefresh, now);
    if cached.Some? then
      (st1, Ok(QueryResultV2(Series(cached.value, time.parse), |cached.value|, |cached.value|, true, elapsedMs)))
    else
      var (st2, fetched) := Fetched(st1, capacity, ttlMs, table, params, config, source, time, polars, now);
      match fetched
      case Err(e) => (st2, Err(e))
      case Ok((raw, processed)) => (st2, Ok(QueryResultV2(Series(processed, time.parse), |raw|, |processed|, false, elapsedMs)))
  }

  /**
   * Both formats drive the cache the same way, keep it valid, and count
   * one lookup unless the refresh is forced, in which case the counters
   * do not move.
   */
  lemma QueryKeepsCacheValid(st: CacheState, capacity: nat, ttlMs: nat, table: string, params: QueryParams,
                             config: Option<DataProcessingConfig>, forceRefresh: bool, source: HistorySource,
                             time: TimeText, polars: PolarsPipeline, now: int, elapsedMs: nat)
    requires capacity > 0 && Valid(st, capacity)
    ensures var st' := HistoryStep(st, capacity, ttlMs, table, params, config, forceRefresh, source, time, polars, now).0;
      && st' == HistoryV2Step(st, capacity, ttlMs, table, params, config, forceRefresh, source, time, polars, now, elapsedMs).0
      && Valid(st', capacity)
      && st'.hits + st'.misses == st.hits + st.misses + (if forceRefresh then 0 else 1)
  {
    var key := QueryKey(table, params, config);
    var (st1, cached) := Lookup(st, key, forceRefresh, now);
    if !forceRefresh {
      GetStepFacts(st, capacity, key, now);
    }
    if cached.None? {
      match source(table, params.startTime, params.endTime, params.tags)
      case Err(_) =>
      case Ok(raw) =>
        PutStepFacts(st1, capacity, key, ProcessedQueryResult(raw, config, time, polars), now, ttlMs);
    }
  }

  /**
   * A forced refresh never reads the cache: the answer is the freshly
   * fetched one (cache_hit false in V2), and on success the processed
   * records replace whatever the key held, as the most recently used
   * entry.
   */
  lemma ForceRefreshFetches(st: CacheState, capacity: nat, ttlMs: nat, table: string, params: QueryParams,
                            config: Option<DataProcessingConfig>, source: HistorySource,
                            time: TimeText, polars: PolarsPipeline, now: int, elapsedMs: nat)
    requires capacity > 0 && Valid(st, capacity)
    ensures var (st', r) := HistoryV2Step(st, capacity, ttlMs, table, params, config, true, source, time, polars, now, elapsedMs);
      && st'.hits == st.hits && st'.misses == st.misses
      && (r.Ok? ==> !r.value.cacheHit)
      && (source(table, params.startTime, params.endTime, params.tags).Ok? ==>
            var raw := source(table, params.startTime, params.endTime, params.tags).value;
            var processed := ProcessedQueryResult(raw, config, time, polars);
            && r == Ok(QueryResultV2(Series(processed, time.parse), |raw|, |processed|, false, elapsedMs))
            && st'.slots[|st'.slots| - 1] == Slot(QueryKey(table, params, config), CacheEntry(processed, now, ttlMs)))
  {
    match source(table, params.startTime, params.endTime, params.tags)
    case Err(_) =>
    case Ok(raw) =>
      PutStepFacts(st, capacity, QueryKey(table, params, config), ProcessedQueryResult(raw, config, time, polars), now, ttlMs);
  }

  /**
   * A hit answers from the cache whatever the database would say: V1
   * pages the cached records and reports their number, V2 reports
   * cache_hit with both totals equal to that number.
   */
  lemma HitAnswersFromCache(st: CacheState, capacity: nat, ttlMs: nat, table: string, params: QueryParams,
                            config: Option<DataProcessingConfig>, s1: HistorySource, s2: HistorySource,
                            time: TimeText, polars: PolarsPipeline, now: int, elapsedMs: nat, i: nat)
    requires capacity > 0 && Valid(st, capacity)
    requires i < |st.slots| && st.slots[i].key == QueryKey(table, params, config) && !IsExpired(st.slots[i].entry, now)
    ensures var d := st.slots[i].entry.data;
      && HistoryStep(st, capacity, ttlMs, table, params, config, false, s1, time, polars, now)
         == HistoryStep(st, capacity, ttlMs, table, params, config, false, s2, time, polars, now)
      && HistoryStep(st, capacity, ttlMs, table, params, config, false, s1, time, polars, now).1
         == Ok(QueryResult(Paginate(d, params.offset, params.limit), |d|))
      && HistoryV2Step(st, capacity, ttlMs, table, params, config, false, s1, time, polars, now, elapsedMs).1
         == Ok(QueryResultV2(Series(d, time.parse), |d|, |d|, true, elapsedMs))
  {
    GetStepFacts(st, capacity, QueryKey(table, params, config), now);
  }

  /**
   * A miss stores the processed records, not the raw ones, as the most
   * recently used entry, and V1 reports the raw count as its total.
   */
  lemma MissStoresProcessed(st: CacheState, capacity: nat, ttlMs: nat, table: string, params: QueryParams,
                            config: Option<DataProcessingConfig>, forceRefresh: bool, source: HistorySource,
                            time: TimeText, polars: PolarsPipeline, now: int)
    requires capacity > 0 && Valid(st, capacity)
    requires Lookup(st, QueryKey(table, params, config), forceRefresh, now).1.None?
    requires source(table, params.startTime, params.endTime, params.tags).Ok?
    ensures var raw := source(table, params.startTime, params.endTime, params.tags).value;
      var processed := ProcessedQueryResult(raw, config, time, polars);
      var res := HistoryStep(st, capacity, ttlMs, table, params, config, forceRefresh, source, time, polars, now);
      && |res.0.slots| > 0
      && res.0.slots[|res.0.slots| - 1] == Slot(QueryKey(table, params, config), CacheEntry(processed, now, ttlMs))
      && res.1 == Ok(QueryResult(Paginate(processed, params.offset, params.limit), |raw|))
  {
    var key := QueryKey(table, params, config);
    var st1 := Lookup(st, key, forceRefresh, now).0;
    if !forceRefresh {
      GetStepFacts(st, capacity, key, now);
    }
    var raw := source(table, params.startTime, params.endTime, params.tags).value;
    var processed := ProcessedQueryResult(raw, config, time, polars);
    var st2 := PutStep(st1, capacity, key, processed, now, ttlMs);
    assert Fetched(st1, capacity, ttlMs, table, params, config, source, time, polars, now) == (st2, Ok((raw, processed)));
    PutStepFacts(st1, capacity, key, processed, now, ttlMs);
  }

  /**
   * A V2 miss reports cache_hit false, the raw count as total_raw and the
   * count after processing as total_processed, with the series of the
   * processed records.
   */
  lemma MissReportsBothCounts(st: CacheState, capacity: nat, ttlMs: nat, table: string, params: QueryParams,
                              config: Option<DataProcessingConfig>, forceRefresh: bool, source: HistorySource,
                              time: TimeText, polars: PolarsPipeline, now: int, elapsedMs: nat)
    requires capacity > 0
    requires Lookup(st, QueryKey(table, params, config), forceRefresh, now).1.None?
    requires source(table, params.startTime, params.endTime, params.tags).Ok?
    ensures var raw := source(table, params.startTime, params.endTime, params.tags).value;
      var processed := ProcessedQueryResult(raw, config, time, polars);
      var r := HistoryV2Step(st, capacity, ttlMs, table, params, config, forceRefresh, source, time, polars, now, elapsedMs).1;
      && r.Ok? && !r.value.cacheHit
      && r.value.totalRaw == |raw| && r.value.totalProcessed == |processed|
      && r.value.series == Series(processed, time.parse)
  {
    var key := QueryKey(table, params, config);
    var st1 := Lookup(st, key, forceRefresh, now).0;
    var raw := source(table, params.startTime, params.endTime, params.tags).value;
    var processed := ProcessedQueryResult(raw, config, time, polars);
    var st2 := PutStep(st1, capacity, key, processed, now, ttlMs);
    assert Fetched(st1, capacity, ttlMs, table, params, config, source, time, polars, now) == (st2, Ok((raw, processed)));
  }

  /**
   * A failed fetch is returned as it is, and nothing is stored: the key
   * is absent afterwards and the entries are those the lookup left.
   */
  lemma FetchErrorStoresNothing(st: CacheState, capacity: nat, ttlMs: nat, table: string, params: QueryParams,
                                config: Option<DataProcessingConfig>, forceRefresh: bool, source: HistorySource,
                                time: TimeText, polars: PolarsPipeline, now: int, elapsedMs: nat)
    requires capacity > 0 && Valid(st, capacity)
    requires Lookup(st, QueryKey(table, params, config), forceRefresh, now).1.None?
    requires source(table, params.startTime, params.endTime, params.tags).Err?
    ensures var e := source(table, params.startTime, params.endTime, params.tags).error;
      var st1 := Lookup(st, QueryKey(table, params, config), forceRefresh, now).0;
      var (st', r) := HistoryStep(st, capacity, ttlMs, table, params, config, forceRefresh, source, time, polars, now);
      && r == Err(e)
      && HistoryV2Step(st, capacity, ttlMs, table, params, config, forceRefresh, source, time, polars, now, elapsedMs).1 == Err(e)
      && st' == st1
      && (forceRefresh ==> st' == st)
      && (!forceRefresh ==> QueryKey(table, params, config) !in Keys(st'.slots) && |st'.slots| <= |st.slots|)
  {
    var key := QueryKey(table, params, config);
    if !forceRefresh {
      GetStepFacts(st, capacity, key, now);
    }
  }

  /**
   * The same query twice in a row, within the time-to-live and with a
   * successful fetch the first time: the second is a hit that returns the
   * same page and the same series. Its V1 total is the processed count
   * where the first reported the raw count, and its V2 total_raw equals
   * total_processed.
   */
  lemma RepeatedQueryHits(st: CacheState, capacity: nat, ttlMs: nat, table: string, params: QueryParams,
                          config: Option<DataProcessingConfig>, forceRefresh: bool, source: HistorySource,
                          time: TimeText, polars: PolarsPipeline, t0: int, t1: int, e0: nat, e1: nat)
    requires capacity > 0 && Valid(st, capacity)
    requires Lookup(st, QueryKey(table, params, config), forceRefresh, t0).1.None?
    requires source(table, params.startTime, params.endTime, params.tags).Ok?
    requires t1 - t0 <= ttlMs
    ensures var raw := source(table, params.startTime, params.endTime, params.tags).value;
      var processed := ProcessedQueryResult(raw, config, time, polars);
      var (st1, first) := HistoryStep(st, capacity, ttlMs, table, params, config, forceRefresh, source, time, polars, t0);
      var second := HistoryStep(st1, capacity, ttlMs, table, params, config, false, source, time, polars, t1).1;
      var firstV2 := HistoryV2Step(st, capacity, ttlMs, table, params, config, forceRefresh, source, time, polars, t0, e0).1;
      var secondV2 := HistoryV2Step(st1, capacity, ttlMs, table, params, config, false, source, time, polars, t1, e1).1;
      && first.Ok? && second.Ok?
      && second.value.records == first.value.records
      && first.value.total == |raw| && second.value.total == |processed|
      && firstV2.Ok? && secondV2.Ok? && secondV2.value.cacheHit
      && secondV2.value.series == firstV2.value.series
      && secondV2.value.totalRaw == secondV2.value.totalProcessed == firstV2.value.totalProcessed
  {
    var key := QueryKey(table, params, config);
    var raw := source(table, params.startTime, params.endTime, params.tags).value;
    var processed := ProcessedQueryResult(raw, config, time, polars);
    var st0 := Lookup(st, key, forceRefresh, t0).0;
    if !forceRefresh {
      GetStepFacts(st, capacity, key, t0);
    }
    MissStoresProcessed(st, capacity, ttlMs, table, params, config, forceRefresh, source, time, polars, t0);
    MissReportsBothCounts(st, capacity, ttlMs, table, params, config, forceRefresh, source, time, polars, t0, e0);
    var st1 := PutStep(st0, capacity, key, processed, t0, ttlMs);
    PutStepFacts(st0, capacity, key, processed, t0, ttlMs);
    HitAnswersFromCache(st1, capacity, ttlMs, table, params, config, source, source, time, polars, t1, e1, |st1.slots| - 1);
  }

  /** Two queries that differ only in the order of their tags share one cache entry. */
  lemma TagOrderSharesEntry(table: string, p: QueryParams, q: QueryParams, config: Option<DataProcessingConfig>)
    requires p.startTime == q.startTime && p.endTime == q.endTime
    requires p.tags.Some? && q.tags.Some? && multiset(p.tags.value) == multiset(q.tags.value)
    ensures QueryKey(table, p, config) == QueryKey(table, q, config)
  {
    KeyIgnoresTagOrder(table, p.startTime, p.endTime, p.tags.value, q.tags.value, config);
  }

  // ---------------------------------------------------------------------
  // The service object
  // ---------------------------------------------------------------------

  /** `QueryService`: a data source, the shared cache and the default table. */
  class QueryService {
    const source: HistorySource
    const cache: QueryCache
    const defaultTable: string

    /** `QueryService::new`. */
    constructor (source: HistorySource, cache: QueryCache, defaultTable: string)
      ensures this.source == source && this.cache == cache && this.defaultTable == defaultTable
    {
      this.source := source;
      this.cache := cache;
      this.defaultTable := defaultTable;
    }

    /** The fetch and the store of a miss; the caller has found nothing in the cache. */
    method FetchAndStore(params: QueryParams, config: Option<DataProcessingConfig>, time: TimeText,
                         polars: PolarsPipeline, now: int)
      returns (r: Result<(seq<HistoryRecord>, seq<HistoryRecord>)>)
      requires cache.Inv()
      modifies cache
      ensures cache.Inv()
      ensures (cache.State(), r)
        == Fetched(old(cache.State()), cache.capacity, cache.config.ttlSeconds * 1000, defaultTable, params, config, source, time, polars, now)
    {
      var raw := source(defaultTable, params.startTime, params.endTime, params.tags);
      if raw.Err? {
        return Err(raw.error);
      }
      var processed := ProcessQueryResult(raw.value, config, time, polars);
      cache.Put(QueryKey(defaultTable, params, config), processed, now);
      r := Ok((raw.value, processed));
    }

    /** The lookup of a query: `get` unless a refresh is forced. */
    method CachedRecords(key: CacheKey, forceRefresh: bool, now: int) returns (cached: Option<seq<HistoryRecord>>)
      requires cache.Inv()
      modifies cache
      ensures cache.Inv()
      ensures (cache.State(), cached) == Lookup(old(cache.State()), key, forceRefresh, now)
    {
      cached := None;
      if !forceRefresh {
        cached := cache.Get(key, now);
      }
    }

    /** `query_history`. */
    method QueryHistory(params: QueryParams, config: Option<DataProcessingConfig>, forceRefresh: bool,
                        time: TimeText, polars: PolarsPipeline, now: int)
      returns (r: Result<QueryResult>)
      requires cache.Inv()
      modifies cache
      ensures cache.Inv()
      ensures (cache.State(), r)
        == HistoryStep(old(cache.State()), cache.capacity, cache.config.ttlSeconds * 1000, defaultTable,
                       params, config, forceRefresh, source, time, polars, now)
    {
      var key := QueryKey(defaultTable, params, config);
      var cached := CachedRecords(key, forceRefresh, now);
      if cached.Some? {
        return Ok(QueryResult(Paginate(cached.value, params.offset, params.limit), |cached.value|));
      }
      var fetched := FetchAndStore(params, config, time, polars, now);
      if fetched.Err? {
        return Err(fetched.error);
      }
      var (raw, processed) := fetched.value;
      r := Ok(QueryResult(Paginate(processed, params.offset, params.limit), |raw|));
    }

    /** `query_history_v2`; `elapsedMs` is the time measured from the start of the call to the answer. */
    method QueryHistoryV2(params: QueryParams, config: Option<DataProcessingConfig>, forceRefresh: bool,
                          time: TimeText, polars: PolarsPipeline, now: int, elapsedMs: nat)
      returns (r: Result<QueryResultV2>)
      requires cache.Inv()
      modifies cache
      ensures cache.Inv()
      ensures (cache.State(), r)
        == HistoryV2Step(old(cache.State()), cache.capacity, cache.config.ttlSeconds * 1000, defaultTable,
                         params, config, forceRefresh, source, time, polars, now, elapsedMs)
    {
      var key := QueryKey(defaultTable, params, config);
      var cached := CachedRecords(key, forceRefresh, now);
      if cached.Some? {
        var series := RecordsToSeries(cached.value, time.parse);
        return Ok(QueryResultV2(series, |cached.value|, |cached.value|, true, elapsedMs));
      }
      var fetched := FetchAndStore(params, config, time, polars, now);
      if fetched.Err? {
        return Err(fetched.error);
      }
      var (raw, processed) := fetched.value;
      var series := RecordsToSeries(processed, time.parse);
      r := Ok(QueryResultV2(series, |raw|, |processed|, false, elapsedMs));
    }
  }
}
