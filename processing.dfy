/**
 * The processing pipeline: per-tag processing (outlier removal, then
 * resampling, then smoothing, each only when enabled), the regrouping of
 * all tags, the choice between the Polars pipeline and the native one,
 * the final downsampling, and the conversion to per-tag chart series.
 */
module Processing {
  import opened Wrappers
  import opened Models
  import opened Grouping
  import opened ProcessingConfig
  import opened Native
  import opened Strings
  import Sorting

  /**
   * The Polars pipeline, which is not part of this model: for the records
   * and the configuration it yields records, or None when it fails.
   */
  type PolarsPipeline = (seq<HistoryRecord>, DataProcessingConfig) -> Option<seq<HistoryRecord>>

  /** Above this many records the Polars pipeline is tried first. */
  const PolarsThreshold: nat := 1000

  /** The per-tag cap of the final downsampling. */
  const MaxPointsPerTag: nat := 5000

  // ---------------------------------------------------------------------
  // process_tag_data
  // ---------------------------------------------------------------------

  predicate ResampleRuns(config: DataProcessingConfig) {
    config.resample.enabled && config.resample.interval > 0
  }

  predicate SmoothingRuns(config: DataProcessingConfig) {
    config.smoothing.enabled && config.smoothing.window > 1
  }

  /**
   * `process_tag_data` as a value: each stage applied to the output of the
   * previous one, skipped when disabled (and resampling also when its
   * interval is 0, smoothing when its window is below 2). No stage adds
   * records.
   */
  function ProcessedTag(g: seq<HistoryRecord>, config: DataProcessingConfig, time: TimeText): (r: seq<HistoryRecord>)
    ensures |r| <= |g|
    ensures !config.outlierRemoval.enabled && !ResampleRuns(config) && !SmoothingRuns(config) ==> r == g
  {
    var a := if config.outlierRemoval.enabled then RemoveOutliers(g) else g;
    assert |a| <= |g| by {
      if config.outlierRemoval.enabled && |g| >= 3 {
        SubsequenceLength(a, g);
      }
    }
    var b := if ResampleRuns(config) then Resampled(a, config.resample.interval, time) else a;
    if SmoothingRuns(config) then Smoothed(b, config.smoothing.window) else b
  }

  /** `process_tag_data`: the records are replaced stage by stage. */
  method ProcessTagData(records: seq<HistoryRecord>, config: DataProcessingConfig, time: TimeText) returns (r: seq<HistoryRecord>)
    ensures r == ProcessedTag(records, config, time)
  {
    r := records;
    if config.outlierRemoval.enabled {
      r := RemoveOutliers(r);
    }
    if config.resample.enabled && config.resample.interval > 0 {
      r := ResampleData(r, config.resample.interval, time);
    }
    if config.smoothing.enabled && config.smoothing.window > 1 {
      r := SmoothData(r, config.smoothing.window);
    }
  }

  /** Processing one tag's records yields records of that tag only. */
  lemma ProcessedTagKeepsTag(g: seq<HistoryRecord>, config: DataProcessingConfig, time: TimeText, t: string)
    requires AllTagged(g, t)
    ensures AllTagged(ProcessedTag(g, config, time), t)
  {
    var a := if config.outlierRemoval.enabled then RemoveOutliers(g) else g;
    OutliersKeepTag(g, t);
    var b := if ResampleRuns(config) then Resampled(a, config.resample.interval, time) else a;
    if ResampleRuns(config) {
      ResampledKeepsTag(a, config.resample.interval, time, t);
    }
    SmoothedKeepsTag(b, config.smoothing.window, t);
  }

  lemma OutliersKeepTag(g: seq<HistoryRecord>, t: string)
    requires AllTagged(g, t)
    ensures AllTagged(RemoveOutliers(g), t)
  {
    if |g| >= 3 {
      SubsequenceMultiset(RemoveOutliers(g), g);
      AllTaggedMultiset(g, RemoveOutliers(g), t);
    }
  }

  lemma SmoothedKeepsTag(s: seq<HistoryRecord>, window: nat, t: string)
    requires AllTagged(s, t)
    ensures AllTagged(Smoothed(s, window), t)
  {
  }

  lemma ProcessedTagEmpty(config: DataProcessingConfig, time: TimeText)
    ensures ProcessedTag([], config, time) == []
  {
    if ResampleRuns(config) {
      assert |Resampled([], config.resample.interval, time)| <= 0;
    }
  }

  // ---------------------------------------------------------------------
  // process_data
  // ---------------------------------------------------------------------

  /** The per-tag outputs of `process_data`, in the order the tags first appear. */
  function ProcessedGroups(s: seq<HistoryRecord>, config: DataProcessingConfig, time: TimeText): (outs: seq<seq<HistoryRecord>>)
    ensures |outs| == |Tags(s)|
    ensures forall j :: 0 <= j < |outs| ==> outs[j] == ProcessedTag(OfTag(s, Tags(s)[j]), config, time)
  {
    seq(|Tags(s)|, j requires 0 <= j < |Tags(s)| => ProcessedTag(OfTag(s, Tags(s)[j]), config, time))
  }

  lemma ProcessedGroupsTagged(s: seq<HistoryRecord>, config: DataProcessingConfig, time: TimeText)
    ensures TaggedOutputs(Tags(s), ProcessedGroups(s, config, time))
  {
    TagsFacts(s);
    var outs := ProcessedGroups(s, config, time);
    forall j | 0 <= j < |outs| ensures AllTagged(outs[j], Tags(s)[j]) {
      ProcessedTagKeepsTag(OfTag(s, Tags(s)[j]), config, time, Tags(s)[j]);
    }
  }

  /** `process_data` as a value: every tag processed on its own, then all sorted by time text. */
  function ProcessedData(s: seq<HistoryRecord>, config: DataProcessingConfig, time: TimeText): (r: seq<HistoryRecord>)
    ensures Sorting.SortedBy(r, ByDateTime)
    ensures |s| == 0 ==> r == []
  {
    SortByDateTime(Concat(ProcessedGroups(s, config, time)))
  }

  /** `process_data`: group by tag, process each group, concatenate, sort. */
  method ProcessData(records: seq<HistoryRecord>, config: DataProcessingConfig, time: TimeText) returns (r: seq<HistoryRecord>)
    ensures r == ProcessedData(records, config, time)
  {
    if |records| == 0 {
      return records;
    }
    var tags, groups := GroupByTag(records);
    ghost var outs := ProcessedGroups(records, config, time);
    var result: seq<HistoryRecord> := [];
    for j := 0 to |tags|
      invariant result == Concat(outs[..j])
    {
      assert outs[..j + 1][..j] == outs[..j];
      var processed := ProcessTagData(groups[j], config, time);
      result := result + processed;
    }
    assert outs[..|tags|] == outs;
    r := SortByDateTime(result);
  }

  /**
   * Tags never mix: under every tag `process_data` holds exactly what
   * processing that tag's records alone gives.
   */
  lemma ProcessedDataPerTag(s: seq<HistoryRecord>, config: DataProcessingConfig, time: TimeText, t: string)
    ensures multiset(OfTag(ProcessedData(s, config, time), t)) == multiset(ProcessedTag(OfTag(s, t), config, time))
  {
    ProcessedGroupsTagged(s, config, time);
    SortedConcatPerTag(Tags(s), ProcessedGroups(s, config, time), t);
    if t !in Tags(s) {
      OfTagAbsent(s, t);
      ProcessedTagEmpty(config, time);
    }
  }

  /** With every stage off, `process_data` only reorders: it sorts the records by time text. */
  lemma ProcessedDataDisabledSorts(s: seq<HistoryRecord>, config: DataProcessingConfig, time: TimeText)
    requires !config.outlierRemoval.enabled && !ResampleRuns(config) && !SmoothingRuns(config)
    ensures multiset(ProcessedData(s, config, time)) == multiset(s)
  {
    var d := ProcessedData(s, config, time);
    forall x ensures multiset(d)[x] == multiset(s)[x] {
      OfTagCount(d, x.tagName);
      OfTagCount(s, x.tagName);
      ProcessedDataPerTag(s, config, time, x.tagName);
    }
  }

  // ---------------------------------------------------------------------
  // process_query_result
  // ---------------------------------------------------------------------

  /**
   * `process_query_result` as a value. Without a configuration only the
   * downsampling runs. With one, more than 1000 records go to the Polars
   * pipeline first and fall back to `process_data` when it fails; fewer go
   * to `process_data` directly. Downsampling to 5000 points per tag comes
   * last in every case.
   */
  function ProcessedQueryResult(records: seq<HistoryRecord>, config: Option<DataProcessingConfig>, time: TimeText, polars: PolarsPipeline): (r: seq<HistoryRecord>)
    ensures Sorting.SortedBy(r, ByDateTime)
  {
    var processed :=
      match config
      case None => records
      case Some(c) =>
        if |records| > PolarsThreshold then
          match polars(records, c)
          case Some(out) => out
          case None => ProcessedData(records, c, time)
        else ProcessedData(records, c, time);
    Downsampled(processed, MaxPointsPerTag)
  }

  /** `process_query_result`. It cannot fail: a Polars failure falls back to the native stages. */
  method ProcessQueryResult(records: seq<HistoryRecord>, config: Option<DataProcessingConfig>, time: TimeText, polars: PolarsPipeline)
    returns (r: seq<HistoryRecord>)
    ensures r == ProcessedQueryResult(records, config, time, polars)
  {
    var processed := records;
    match config {
      case None =>
      case Some(c) =>
        if |records| > PolarsThreshold {
          match polars(records, c) {
            case Some(out) =>
              processed := out;
            case None =>
              processed := ProcessData(records, c, time);
          }
        } else {
          processed := ProcessData(records, c, time);
        }
    }
    r := Downsample(processed, MaxPointsPerTag);
  }

  /**
   * Without a configuration nothing is processed: the result holds only
   * input records, and a tag with at most 5000 records keeps all of them.
   */
  lemma NoConfigOnlyDownsamples(records: seq<HistoryRecord>, time: TimeText, polars: PolarsPipeline, t: string)
    ensures multiset(ProcessedQueryResult(records, None, time, polars)) <= multiset(records)
    ensures |OfTag(records, t)| <= MaxPointsPerTag ==>
      multiset(OfTag(ProcessedQueryResult(records, None, time, polars), t)) == multiset(OfTag(records, t))
  {
    DownsampledKeepsOnlyInputRecords(records, MaxPointsPerTag);
    DownsampledPerTag(records, MaxPointsPerTag, t);
  }

  /** Up to 1000 records the Polars pipeline is never consulted. */
  lemma SmallInputsIgnorePolars(records: seq<HistoryRecord>, config: Option<DataProcessingConfig>, time: TimeText, p1: PolarsPipeline, p2: PolarsPipeline)
    requires |records| <= PolarsThreshold
    ensures ProcessedQueryResult(records, config, time, p1) == ProcessedQueryResult(records, config, time, p2)
  {
  }

  /** A failing Polars pipeline gives the same answer as the native stages. */
  lemma PolarsFailureFallsBack(records: seq<HistoryRecord>, c: DataProcessingConfig, time: TimeText, polars: PolarsPipeline)
    requires polars(records, c) == None
    ensures ProcessedQueryResult(records, Some(c), time, polars)
      == Downsampled(ProcessedData(records, c, time), MaxPointsPerTag)
  {
  }

  // ---------------------------------------------------------------------
  // records_to_series
  // ---------------------------------------------------------------------

  /** `[timestamp_ms, tag_val]` of every record; an unparseable time text becomes 0. */
  function Points(g: seq<HistoryRecord>, parse: string -> Option<int>): (r: seq<Point>)
    ensures |r| == |g|
    ensures forall i :: 0 <= i < |g| ==> r[i].value == g[i].tagVal
    ensures forall i :: 0 <= i < |g| && parse(g[i].dateTime).Some? ==> r[i].timestampMs == parse(g[i].dateTime).value
    ensures forall i :: 0 <= i < |g| && parse(g[i].dateTime).None? ==> r[i].timestampMs == 0
  {
    seq(|g|, i requires 0 <= i < |g| => Point(parse(g[i].dateTime).GetOr(0), g[i].tagVal))
  }

  predicate ByTimestamp(a: Point, b: Point) {
    a.timestampMs <= b.timestampMs
  }

  predicate ByTagName(a: ChartSeriesData, b: ChartSeriesData) {
    StrLe(a.tagName, b.tagName)
  }

  lemma ByTagNameIsPreorder()
    ensures Sorting.TotalPreorder(ByTagName)
  {
    forall a: ChartSeriesData, b: ChartSeriesData ensures ByTagName(a, b) || ByTagName(b, a) {
      StrLeTotal(a.tagName, b.tagName);
    }
    forall a: ChartSeriesData, b: ChartSeriesData, c: ChartSeriesData | ByTagName(a, b) && ByTagName(b, c)
      ensures ByTagName(a, c)
    {
      StrLeTransitive(a.tagName, b.tagName, c.tagName);
    }
  }

  /** One tag's series, its points sorted by timestamp. */
  function SeriesOf(records: seq<HistoryRecord>, t: string, parse: string -> Option<int>): ChartSeriesData {
    ChartSeriesData(t, Sorting.SortBy(Points(OfTag(records, t), parse), ByTimestamp))
  }

  /** The series of every tag, in the order the tags first appear. */
  function UnsortedSeries(records: seq<HistoryRecord>, parse: string -> Option<int>): (r: seq<ChartSeriesData>)
    ensures |r| == |Tags(records)|
    ensures forall j :: 0 <= j < |r| ==> r[j] == SeriesOf(records, Tags(records)[j], parse)
  {
    seq(|Tags(records)|, j requires 0 <= j < |Tags(records)| => SeriesOf(records, Tags(records)[j], parse))
  }

  /** `records_to_series` as a value: one series per tag, the series sorted by tag name. */
  function Series(records: seq<HistoryRecord>, parse: string -> Option<int>): (r: seq<ChartSeriesData>)
    ensures |r| == |Tags(records)|
    ensures Sorting.SortedBy(r, ByTagName)
  {
    ByTagNameIsPreorder();
    Sorting.SortBy(UnsortedSeries(records, parse), ByTagName)
  }

  /**
   * `records_to_series`: the records grouped by tag, each group turned into
   * points sorted by timestamp, the series sorted by tag name.
   */
  method RecordsToSeries(records: seq<HistoryRecord>, parse: string -> Option<int>) returns (series: seq<ChartSeriesData>)
    ensures series == Series(records, parse)
  {
    var tags, groups := GroupByTag(records);
    ghost var all := UnsortedSeries(records, parse);
    var unsorted: seq<ChartSeriesData> := [];
    for j := 0 to |tags|
      invariant unsorted == all[..j]
    {
      var points := Sorting.SortBy(Points(groups[j], parse), ByTimestamp);
      unsorted := unsorted + [ChartSeriesData(tags[j], points)];
    }
    assert all[..|tags|] == all;
    ByTagNameIsPreorder();
    series := Sorting.SortBy(unsorted, ByTagName);
  }

  /** Every series is the series of its own tag, and that tag occurs in the records. */
  lemma SeriesMember(records: seq<HistoryRecord>, parse: string -> Option<int>, x: ChartSeriesData)
    requires x in Series(records, parse)
    ensures x.tagName in Tags(records)
    ensures x == SeriesOf(records, x.tagName, parse)
  {
    var all := UnsortedSeries(records, parse);
    assert x in multiset(Series(records, parse));
    assert x in all;
  }

  /** Each tag of the records has its series. */
  lemma SeriesComplete(records: seq<HistoryRecord>, parse: string -> Option<int>, t: string)
    requires t in Tags(records)
    ensures SeriesOf(records, t, parse) in Series(records, parse)
  {
    var all := UnsortedSeries(records, parse);
    var k :| 0 <= k < |all| && Tags(records)[k] == t;
    assert all[k] in multiset(Series(records, parse));
  }

  /** Every series is its own tag's series, for a tag of the records. */
  lemma SeriesAreOwn(records: seq<HistoryRecord>, parse: string -> Option<int>)
    ensures var r := Series(records, parse);
      forall j :: 0 <= j < |r| ==> r[j] == SeriesOf(records, r[j].tagName, parse) && r[j].tagName in Tags(records)
  {
    var r := Series(records, parse);
    forall j | 0 <= j < |r|
      ensures r[j] == SeriesOf(records, r[j].tagName, parse) && r[j].tagName in Tags(records)
    {
      SeriesMember(records, parse, r[j]);
    }
  }

  /** No two series share a tag. */
  lemma SeriesDistinctTags(records: seq<HistoryRecord>, parse: string -> Option<int>)
    ensures var r := Series(records, parse);
      forall i, j :: 0 <= i < j < |r| ==> r[i].tagName != r[j].tagName
  {
    var all := UnsortedSeries(records, parse);
    var r := Series(records, parse);
    TagsFacts(records);
    assert Distinct(all);
    PermutationDistinct(all, r);
    SeriesAreOwn(records, parse);
  }

  /** There is a series for exactly the tags of the records. */
  lemma SeriesCoverTags(records: seq<HistoryRecord>, parse: string -> Option<int>)
    ensures var r := Series(records, parse);
      forall t :: t in Tags(records) <==> exists j :: 0 <= j < |r| && r[j].tagName == t
  {
    var r := Series(records, parse);
    SeriesAreOwn(records, parse);
    forall t | t in Tags(records) ensures exists j :: 0 <= j < |r| && r[j].tagName == t {
      SeriesComplete(records, parse, t);
    }
  }

  /**
   * The series are in strictly increasing tag-name order, there is one for
   * exactly the tags of the records, and each holds every record of its
   * tag as a point, in timestamp order.
   */
  lemma SeriesFacts(records: seq<HistoryRecord>, parse: string -> Option<int>)
    ensures var r := Series(records, parse);
      && (forall i, j :: 0 <= i < j < |r| ==> r[i].tagName != r[j].tagName)
      && (forall t :: t in Tags(records) <==> exists j :: 0 <= j < |r| && r[j].tagName == t)
      && (forall j :: 0 <= j < |r| ==>
            Sorting.SortedBy(r[j].data, ByTimestamp)
            && multiset(r[j].data) == multiset(Points(OfTag(records, r[j].tagName), parse)))
  {
    SeriesDistinctTags(records, parse);
    SeriesCoverTags(records, parse);
    SeriesAreOwn(records, parse);
  }

  /** Records of one tag become one series with one point per record. */
  lemma OneTagOneSeries(records: seq<HistoryRecord>, t: string, parse: string -> Option<int>)
    requires |records| > 0 && AllTagged(records, t)
    ensures |Series(records, parse)| == 1
    ensures Series(records, parse)[0].tagName == t
    ensures |Series(records, parse)[0].data| == |records|
  {
    TagsUniform(records, t);
    OfTagUniform(records, t, t);
    SeriesFacts(records, parse);
  }
}
