/**
 * The plain records that flow between the components: a history row,
 * query parameters and the two result formats.
 */
module Models {
  import opened Wrappers
  import opened Strings
  import Sorting

  /** One row of the history table; `tagVal` is the source's `f64`. */
  datatype HistoryRecord = HistoryRecord(dateTime: string, tagName: string, tagVal: real, tagQuality: string)

  /** `QueryParams`: the time range, an optional tag filter and optional paging. */
  datatype QueryParams = QueryParams(
    startTime: string,
    endTime: string,
    tags: Option<seq<string>>,
    limit: Option<nat>,
    offset: Option<nat>)

  /** `QueryResult`, the flat V1 answer. */
  datatype QueryResult = QueryResult(records: seq<HistoryRecord>, total: nat)

  /** One `[timestamp_ms, value]` pair of a chart series. */
  datatype Point = Point(timestampMs: int, value: real)

  /** `ChartSeriesData`: the points of one tag. */
  datatype ChartSeriesData = ChartSeriesData(tagName: string, data: seq<Point>)

  /** `QueryResultV2`, the answer grouped by tag. */
  datatype QueryResultV2 = QueryResultV2(
    series: seq<ChartSeriesData>,
    totalRaw: nat,
    totalProcessed: nat,
    cacheHit: bool,
    queryTimeMs: nat)

  /**
   * Reading and writing the `date_time` text, which the processing code
   * does with chrono in the local time zone. `parse` gives milliseconds
   * since the epoch, or None when the text fits neither the
   * `%Y-%m-%dT%H:%M:%S%.3f` nor the `%Y-%m-%dT%H:%M:%S` layout or names a
   * local time that does not exist exactly once; `format` writes
   * milliseconds back in the first layout.
   */
  datatype TimeText = TimeText(parse: string -> Option<int>, format: int -> string)

  /** The order `sort_by(|a, b| a.date_time.cmp(&b.date_time))` sorts by. */
  predicate ByDateTime(a: HistoryRecord, b: HistoryRecord) {
    StrLe(a.dateTime, b.dateTime)
  }

  lemma ByDateTimeIsPreorder()
    ensures Sorting.TotalPreorder(ByDateTime)
  {
    forall a: HistoryRecord, b: HistoryRecord ensures ByDateTime(a, b) || ByDateTime(b, a) {
      StrLeTotal(a.dateTime, b.dateTime);
    }
    forall a: HistoryRecord, b: HistoryRecord, c: HistoryRecord | ByDateTime(a, b) && ByDateTime(b, c)
      ensures ByDateTime(a, c)
    {
      StrLeTransitive(a.dateTime, b.dateTime, c.dateTime);
    }
  }

  /** The records sorted by their `date_time` text, stably. */
  function SortByDateTime(s: seq<HistoryRecord>): (r: seq<HistoryRecord>)
    ensures Sorting.SortedBy(r, ByDateTime)
    ensures multiset(r) == multiset(s)
    ensures |r| == |s|
  {
    ByDateTimeIsPreorder();
    Sorting.SortBy(s, ByDateTime)
  }
}
