/**
 * The four native processing stages applied to one tag's records:
 * 3σ outlier removal, mean resampling into epoch-aligned windows,
 * centred moving-average smoothing and stride downsampling.
 */
module Native {
  import opened Wrappers
  import opened Models
  import opened Numeric
  import opened Grouping
  import Sorting

  /** `records.iter().map(|r| r.tag_val)`. */
  function Vals(s: seq<HistoryRecord>): (v: seq<real>)
    ensures |v| == |s| && forall i :: 0 <= i < |s| ==> v[i] == s[i].tagVal
  {
    seq(|s|, i requires 0 <= i < |s| => s[i].tagVal)
  }

  // ---------------------------------------------------------------------
  // remove_outliers
  // ---------------------------------------------------------------------

  /**
   * `mean - 3σ <= x <= mean + 3σ` with `σ = sqrt(variance)`, written
   * without the square root: `(x - mean)² <= 9·variance`.
   */
  predicate InBand(x: real, mean: real, variance: real) {
    Square(x - mean) <= 9.0 * variance
  }

  /** `into_iter().filter(...)` with the band test. */
  function InBandOnly(s: seq<HistoryRecord>, mean: real, variance: real): seq<HistoryRecord>
    decreases |s|
  {
    if |s| == 0 then []
    else (if InBand(s[0].tagVal, mean, variance) then [s[0]] else []) + InBandOnly(s[1..], mean, variance)
  }

  /** `r` is what filtering `s` by the band leaves: in order, every kept record, nothing else. */
  ghost predicate FilteredBy(r: seq<HistoryRecord>, s: seq<HistoryRecord>, mean: real, variance: real) {
    && Subsequence(r, s)
    && forall x :: multiset(r)[x] == if InBand(x.tagVal, mean, variance) then multiset(s)[x] else 0
  }

  lemma {:induction false} InBandOnlyFilters(s: seq<HistoryRecord>, mean: real, variance: real)
    ensures FilteredBy(InBandOnly(s, mean, variance), s, mean, variance)
    decreases |s|
  {
    if |s| > 0 {
      InBandOnlyFilters(s[1..], mean, variance);
      assert s == [s[0]] + s[1..];
      var rest := InBandOnly(s[1..], mean, variance);
      if InBand(s[0].tagVal, mean, variance) {
        assert ([s[0]] + rest)[1..] == rest;
      } else {
        assert [] + rest == rest;
      }
    }
  }

  lemma {:induction false} InBandOnlyAll(s: seq<HistoryRecord>, mean: real, variance: real)
    requires forall i :: 0 <= i < |s| ==> InBand(s[i].tagVal, mean, variance)
    ensures InBandOnly(s, mean, variance) == s
    decreases |s|
  {
    if |s| > 0 {
      InBandOnlyAll(s[1..], mean, variance);
      assert s == [s[0]] + s[1..];
    }
  }

  /** The band the filter uses: the mean and population variance of all values. */
  function BandMean(s: seq<HistoryRecord>): real
    requires |s| > 0
  {
    Mean(Vals(s))
  }

  function BandVariance(s: seq<HistoryRecord>): real
    requires |s| > 0
  {
    Variance(Vals(s))
  }

  /**
   * `remove_outliers`: fewer than 3 records pass through; otherwise exactly
   * the records whose value lies within three population standard
   * deviations of the mean are kept, in order. It never fails.
   */
  function RemoveOutliers(records: seq<HistoryRecord>): (r: seq<HistoryRecord>)
    ensures |records| < 3 ==> r == records
    ensures |records| >= 3 ==> FilteredBy(r, records, BandMean(records), BandVariance(records))
  {
    if |records| < 3 then records
    else
      InBandOnlyFilters(records, BandMean(records), BandVariance(records));
      InBandOnly(records, BandMean(records), BandVariance(records))
  }

  /**
   * By Samuelson's inequality no value is ever further than `sqrt(n - 1)·σ`
   * from the mean, so with at most 10 records nothing is removed: a single
   * spike among five points survives.
   */
  lemma NothingRemovedFromTen(records: seq<HistoryRecord>)
    requires |records| <= 10
    ensures RemoveOutliers(records) == records
  {
    if |records| >= 3 {
      var v := Vals(records);
      var mean, variance := BandMean(records), BandVariance(records);
      VarianceNonNegative(v);
      forall i | 0 <= i < |records| ensures InBand(records[i].tagVal, mean, variance) {
        Samuelson(v, i);
        assert ((|v| - 1) as real) * variance <= 9.0 * variance;
      }
      InBandOnlyAll(records, mean, variance);
    }
  }

  /** The values of the outlier example: 10, 11, …, 19 and 1000. */
  function SpikeValues(): seq<real> {
    [10.0, 11.0, 12.0, 13.0, 14.0, 15.0, 16.0, 17.0, 18.0, 19.0, 1000.0]
  }

  lemma SpikeSum()
    ensures Sum(SpikeValues()) == 1145.0
  {
    var v := SpikeValues();
    SumPrefix(v, 0);
    SumPrefix(v, 1);
    SumPrefix(v, 2);
    SumPrefix(v, 3);
    SumPrefix(v, 4);
    SumPrefix(v, 5);
    SumPrefix(v, 6);
    SumPrefix(v, 7);
    SumPrefix(v, 8);
    SumPrefix(v, 9);
    SumPrefix(v, 10);
    assert v[..11] == v;
  }

  lemma SpikeSquaredDeviations()
    ensures Sum(Squares(Devs(SpikeValues(), 1145.0 / 11.0))) == 9713010.0 / 11.0
  {
    var q := Squares(Devs(SpikeValues(), 1145.0 / 11.0));
    SumPrefix(q, 0);
    SumPrefix(q, 1);
    SumPrefix(q, 2);
    SumPrefix(q, 3);
    SumPrefix(q, 4);
    SumPrefix(q, 5);
    SumPrefix(q, 6);
    SumPrefix(q, 7);
    SumPrefix(q, 8);
    SumPrefix(q, 9);
    SumPrefix(q, 10);
    assert q[..11] == q;
  }

  lemma SpikeBand(records: seq<HistoryRecord>)
    requires |records| == 11
    requires forall i :: 0 <= i < 10 ==> records[i].tagVal == 10.0 + (i as real)
    requires records[10].tagVal == 1000.0
    ensures BandMean(records) == 1145.0 / 11.0
    ensures BandVariance(records) == 9713010.0 / 121.0
  {
    assert Vals(records) == SpikeValues();
    SpikeSum();
    SpikeSquaredDeviations();
  }

  lemma SpikeOutOfBand()
    ensures !InBand(1000.0, 1145.0 / 11.0, 9713010.0 / 121.0)
  {
    assert 1000.0 - 1145.0 / 11.0 == 9855.0 / 11.0;
  }

  /**
   * Ten values 10, 11, …, 19 and one value 1000: the 1000 lies outside the
   * band and is removed, so every value left is below 100.
   */
  lemma SpikeRemoved(records: seq<HistoryRecord>)
    requires |records| == 11
    requires forall i :: 0 <= i < 10 ==> records[i].tagVal == 10.0 + (i as real)
    requires records[10].tagVal == 1000.0
    ensures forall x :: x in RemoveOutliers(records) ==> x.tagVal < 100.0
  {
    SpikeBand(records);
    var mean, variance := BandMean(records), BandVariance(records);
    SpikeOutOfBand();
    var r := RemoveOutliers(records);
    forall x | x in r ensures x.tagVal < 100.0 {
      assert multiset(r)[x] > 0;
      assert InBand(x.tagVal, mean, variance);
      assert x in multiset(records);
      var i :| 0 <= i < |records| && records[i] == x;
      assert i != 10;
    }
  }

  // ---------------------------------------------------------------------
  // resample_data
  // ---------------------------------------------------------------------

  /**
   * The start of the window holding timestamp `t`:
   * `(t / interval_ms) * interval_ms` with Rust's `/`, which truncates
   * toward zero. Windows are aligned to the epoch, not to the query.
   */
  function WindowStart(t: int, intervalMs: nat): (k: int)
    requires intervalMs > 0
    ensures k % intervalMs == 0
    ensures t >= 0 ==> 0 <= k <= t < k + intervalMs
    ensures t >= 0 ==> k / intervalMs == t / intervalMs
  {
    var q := TruncDiv(t, intervalMs);
    MultipleMod(q, intervalMs);
    DivOfMultiple(q, intervalMs);
    if t >= 0 then
      FloorMultiple(t, intervalMs);
      q * intervalMs
    else
      q * intervalMs
  }

  lemma FloorMultiple(t: int, m: nat)
    requires t >= 0 && m > 0
    ensures 0 <= (t / m) * m <= t < (t / m) * m + m
  {
    var q := t / m;
    var r := t % m;
    assert t == m * q + r;
    assert q * m == m * q;
    assert q >= 0;
    assert q * m >= 0;
  }

  lemma DivOfMultiple(q: int, m: nat)
    requires m > 0
    ensures (q * m) / m == q
  {
    MultipleMod(q, m);
    var d := (q * m) / m;
    assert q * m == m * d;
    assert (q - d) * m == 0;
  }

  /**
   * Before the epoch the truncating `/` rounds up, so the window starting
   * at 0 covers two intervals: half a second before and half a second
   * after the epoch land in the same window.
   */
  lemma WindowZeroSpansTwoIntervals()
    ensures WindowStart(-500, 1000) == WindowStart(500, 1000) == 0
  {
    var q := TruncDiv(-500, 1000);
    assert -1000 < -500 - q * 1000 < 0;
  }

  /** The window a record falls in, or None when its time text does not parse. */
  function KeyOf(x: HistoryRecord, intervalMs: nat, parse: string -> Option<int>): Option<int>
    requires intervalMs > 0
  {
    match parse(x.dateTime)
    case Some(t) => Some(WindowStart(t, intervalMs))
    case None => None
  }

  /** `KeyOf` as the function the grouping below is taken over. */
  function WindowKey(intervalMs: nat, parse: string -> Option<int>): (key: HistoryRecord -> Option<int>)
    requires intervalMs > 0
  {
    x => KeyOf(x, intervalMs, parse)
  }

  /** The records of `s` whose key is `k`, in input order. */
  function InWindow(s: seq<HistoryRecord>, key: HistoryRecord -> Option<int>, k: int): (r: seq<HistoryRecord>)
    ensures forall i :: 0 <= i < |r| ==> key(r[i]) == Some(k)
    decreases |s|
  {
    if |s| == 0 then []
    else InWindow(s[..|s| - 1], key, k) + (if key(s[|s| - 1]) == Some(k) then [s[|s| - 1]] else [])
  }

  lemma {:induction false} InWindowSubset(s: seq<HistoryRecord>, key: HistoryRecord -> Option<int>, k: int)
    ensures multiset(InWindow(s, key, k)) <= multiset(s)
    decreases |s|
  {
    if |s| > 0 {
      InWindowSubset(s[..|s| - 1], key, k);
      assert s == s[..|s| - 1] + [s[|s| - 1]];
    }
  }

  /** The distinct keys of `s` in order of first appearance: the keys of the `windows` map. */
  function Starts(s: seq<HistoryRecord>, key: HistoryRecord -> Option<int>): (r: seq<int>)
    ensures |r| <= |s|
    decreases |s|
  {
    if |s| == 0 then []
    else
      var prev := Starts(s[..|s| - 1], key);
      match key(s[|s| - 1])
      case None => prev
      case Some(k) => if k in prev then prev else prev + [k]
  }

  lemma InWindowSnoc(p: seq<HistoryRecord>, x: HistoryRecord, key: HistoryRecord -> Option<int>, k: int)
    ensures InWindow(p + [x], key, k) == InWindow(p, key, k) + (if key(x) == Some(k) then [x] else [])
  {
    assert (p + [x])[..|p|] == p;
  }

  /**
   * Each key occurs once and has at least one record; every record with a
   * key has it listed; a key not listed collects no record.
   */
  lemma StartsFacts(s: seq<HistoryRecord>, key: HistoryRecord -> Option<int>)
    ensures Distinct(Starts(s, key))
    ensures forall k :: k in Starts(s, key) <==> InWindow(s, key, k) != []
    ensures forall i :: 0 <= i < |s| && key(s[i]).Some? ==> key(s[i]).value in Starts(s, key)
  {
    StartsDistinct(s, key);
    StartsComplete(s, key);
    forall k ensures k in Starts(s, key) <==> InWindow(s, key, k) != [] {
      StartsOccupied(s, key, k);
    }
  }

  lemma {:induction false} StartsDistinct(s: seq<HistoryRecord>, key: HistoryRecord -> Option<int>)
    ensures Distinct(Starts(s, key))
    decreases |s|
  {
    if |s| > 0 {
      StartsDistinct(s[..|s| - 1], key);
    }
  }

  lemma {:induction false} StartsComplete(s: seq<HistoryRecord>, key: HistoryRecord -> Option<int>)
    ensures forall i :: 0 <= i < |s| && key(s[i]).Some? ==> key(s[i]).value in Starts(s, key)
    decreases |s|
  {
    if |s| > 0 {
      var p := s[..|s| - 1];
      StartsComplete(p, key);
      assert forall i :: 0 <= i < |p| ==> s[i] == p[i];
      assert forall k :: k in Starts(p, key) ==> k in Starts(s, key);
    }
  }

  lemma {:induction false} StartsOccupied(s: seq<HistoryRecord>, key: HistoryRecord -> Option<int>, k: int)
    ensures k in Starts(s, key) <==> InWindow(s, key, k) != []
    decreases |s|
  {
    if |s| > 0 {
      var p := s[..|s| - 1];
      var x := s[|s| - 1];
      StartsOccupied(p, key, k);
      assert s == p + [x];
      InWindowSnoc(p, x, key, k);
      if key(x) == Some(k) {
        assert InWindow(s, key, k) == InWindow(p, key, k) + [x];
        assert k in Starts(s, key);
      } else {
        assert InWindow(s, key, k) == InWindow(p, key, k);
        assert k in Starts(s, key) <==> k in Starts(p, key);
      }
    }
  }

  /** Every window start is a multiple of the interval. */
  lemma StartsAreMultiples(s: seq<HistoryRecord>, intervalMs: nat, parse: string -> Option<int>)
    requires intervalMs > 0
    ensures forall k :: k in Starts(s, WindowKey(intervalMs, parse)) ==> k % intervalMs == 0
  {
    var key := WindowKey(intervalMs, parse);
    StartsFacts(s, key);
    forall k | k in Starts(s, key) ensures k % intervalMs == 0 {
      var w := InWindow(s, key, k);
      assert key(w[0]) == Some(k);
    }
  }

  /** One entry of the `windows` map: a window start and the records in it. */
  datatype Window = Window(start: int, members: seq<HistoryRecord>)

  /** The `windows` map once the loop has seen all of `s`. */
  function Windows(s: seq<HistoryRecord>, key: HistoryRecord -> Option<int>): (ws: seq<Window>)
    ensures |ws| <= |s|
    ensures forall j :: 0 <= j < |ws| ==> ws[j].members != []
  {
    var keys := Starts(s, key);
    StartsFacts(s, key);
    seq(|keys|, j requires 0 <= j < |keys| => Window(keys[j], InWindow(s, key, keys[j])))
  }

  /** The record a window becomes: its start, the first member's tag and quality, the mean value. */
  function WindowRecord(w: Window, format: int -> string): HistoryRecord
    requires w.members != []
  {
    HistoryRecord(format(w.start), w.members[0].tagName, Mean(Vals(w.members)), w.members[0].tagQuality)
  }

  function WindowRecords(ws: seq<Window>, format: int -> string): (r: seq<HistoryRecord>)
    requires forall j :: 0 <= j < |ws| ==> ws[j].members != []
    ensures |r| == |ws|
  {
    seq(|ws|, j requires 0 <= j < |ws| => WindowRecord(ws[j], format))
  }

  /**
   * `resample_data` as a value: one record per window, sorted by its time
   * text. It never holds more records than the input.
   */
  function Resampled(s: seq<HistoryRecord>, interval: nat, time: TimeText): (r: seq<HistoryRecord>)
    requires interval > 0
    ensures |r| == |Windows(s, WindowKey(interval * 1000, time.parse))| <= |s|
    ensures Sorting.SortedBy(r, ByDateTime)
    ensures multiset(r) == multiset(WindowRecords(Windows(s, WindowKey(interval * 1000, time.parse)), time.format))
  {
    SortByDateTime(WindowRecords(Windows(s, WindowKey(interval * 1000, time.parse)), time.format))
  }

  /** The window starts met so far, in order, and each one's records: the loop state of `resample_data`. */
  ghost predicate WindowsSoFar(p: seq<HistoryRecord>, key: HistoryRecord -> Option<int>, keys: seq<int>, windows: seq<seq<HistoryRecord>>) {
    && keys == Starts(p, key)
    && |windows| == |keys|
    && forall j :: 0 <= j < |keys| ==> windows[j] == InWindow(p, key, keys[j])
  }

  /**
   * One more record: it is skipped without a key, appended to its window
   * when that start was met before, and opens a new window otherwise.
   */
  lemma WindowsStep(p: seq<HistoryRecord>, x: HistoryRecord, key: HistoryRecord -> Option<int>,
                    keys: seq<int>, windows: seq<seq<HistoryRecord>>)
    requires WindowsSoFar(p, key, keys, windows)
    ensures key(x).None? ==> WindowsSoFar(p + [x], key, keys, windows)
    ensures key(x).Some? && key(x).value in keys ==>
      var j := IndexOf(keys, key(x).value);
      WindowsSoFar(p + [x], key, keys, windows[j := windows[j] + [x]])
    ensures key(x).Some? && key(x).value !in keys ==>
      WindowsSoFar(p + [x], key, keys + [key(x).value], windows + [[x]])
  {
    assert (p + [x])[..|p|] == p;
    forall k | 0 <= k < |keys| {
      InWindowSnoc(p, x, key, keys[k]);
    }
    if key(x).Some? {
      var k := key(x).value;
      if k in keys {
        StartsDistinct(p, key);
      } else {
        StartsOccupied(p, key, k);
        InWindowSnoc(p, x, key, k);
      }
    }
  }

  /**
   * `resample_data`: records are put into the window their timestamp falls
   * in, then each window becomes one record at the window start carrying
   * the mean of the window's values. An interval of 0 would divide by
   * zero and is excluded.
   */
  method ResampleData(records: seq<HistoryRecord>, interval: nat, time: TimeText) returns (r: seq<HistoryRecord>)
    requires interval > 0
    ensures r == Resampled(records, interval, time)
  {
    if |records| == 0 {
      return records;
    }
    var intervalMs := interval * 1000;
    ghost var wk := WindowKey(intervalMs, time.parse);
    var keys: seq<int> := [];
    var windows: seq<seq<HistoryRecord>> := [];
    for i := 0 to |records|
      invariant WindowsSoFar(records[..i], wk, keys, windows)
    {
      var x := records[i];
      assert records[..i + 1] == records[..i] + [x];
      WindowsStep(records[..i], x, wk, keys, windows);
      match time.parse(x.dateTime) {
        case Some(t) =>
          var key := WindowStart(t, intervalMs);
          assert wk(x) == Some(key);
          var j := IndexOf(keys, key);
          if j < |keys| {
            windows := windows[j := windows[j] + [x]];
          } else {
            keys := keys + [key];
            windows := windows + [[x]];
          }
        case None =>
          assert wk(x) == None;
      }
    }
    assert records[..|records|] == records;
    var ws := seq(|keys|, j requires 0 <= j < |keys| => Window(keys[j], windows[j]));
    assert ws == Windows(records, wk);
    r := SortByDateTime(WindowRecords(ws, time.format));
  }

  /**
   * Every resampled record stands for one window: its time text is the
   * window start, a multiple of the interval; its value is the mean of
   * exactly the input records that fall in that window, and its tag and
   * quality are those of the first of them.
   */
  lemma ResampledRecordIsWindowMean(s: seq<HistoryRecord>, interval: nat, time: TimeText, x: HistoryRecord)
    requires interval > 0 && x in Resampled(s, interval, time)
    ensures exists k: int :: (
      var w := InWindow(s, WindowKey(interval * 1000, time.parse), k);
      && k % (interval * 1000) == 0
      && w != []
      && x == HistoryRecord(time.format(k), w[0].tagName, Mean(Vals(w)), w[0].tagQuality))
  {
    var key := WindowKey(interval * 1000, time.parse);
    var ws := Windows(s, key);
    var rs := WindowRecords(ws, time.format);
    assert x in multiset(rs);
    var j :| 0 <= j < |rs| && rs[j] == x;
    StartsAreMultiples(s, interval * 1000, time.parse);
    assert ws[j].start in Starts(s, key);
  }

  /**
   * Conversely every occupied window is in the output: for each window
   * start with at least one record, the record at that start carrying the
   * mean of exactly those records is among the resampled ones.
   */
  lemma ResampledHasEveryWindow(s: seq<HistoryRecord>, interval: nat, time: TimeText, k: int)
    requires interval > 0
    requires InWindow(s, WindowKey(interval * 1000, time.parse), k) != []
    ensures var w := InWindow(s, WindowKey(interval * 1000, time.parse), k);
      HistoryRecord(time.format(k), w[0].tagName, Mean(Vals(w)), w[0].tagQuality) in Resampled(s, interval, time)
  {
    var key := WindowKey(interval * 1000, time.parse);
    var ws := Windows(s, key);
    var rs := WindowRecords(ws, time.format);
    StartsFacts(s, key);
    var keys := Starts(s, key);
    var j := IndexOf(keys, k);
    assert ws[j] == Window(k, InWindow(s, key, k));
    assert rs[j] in multiset(rs);
  }

  /** Resampling one tag's records yields records of that tag only. */
  lemma ResampledKeepsTag(s: seq<HistoryRecord>, interval: nat, time: TimeText, t: string)
    requires interval > 0 && AllTagged(s, t)
    ensures AllTagged(Resampled(s, interval, time), t)
  {
    var key := WindowKey(interval * 1000, time.parse);
    var ws := Windows(s, key);
    var rs := WindowRecords(ws, time.format);
    forall j | 0 <= j < |rs| ensures rs[j].tagName == t {
      InWindowSubset(s, key, ws[j].start);
      AllTaggedMultiset(s, InWindow(s, key, ws[j].start), t);
    }
    AllTaggedMultiset(rs, Resampled(s, interval, time), t);
  }

  /**
   * Timestamps from `lo` to `hi`, none before the epoch, fall into at most
   * `hi / m - lo / m + 1` windows of `m` milliseconds.
   */
  lemma WindowCountBound(s: seq<HistoryRecord>, intervalMs: nat, parse: string -> Option<int>, lo: int, hi: int)
    requires intervalMs > 0 && 0 <= lo <= hi
    requires forall i :: 0 <= i < |s| && parse(s[i].dateTime).Some? ==> lo <= parse(s[i].dateTime).value <= hi
    ensures |Starts(s, WindowKey(intervalMs, parse))| <= hi / intervalMs - lo / intervalMs + 1
  {
    var key := WindowKey(intervalMs, parse);
    var keys := Starts(s, key);
    StartsDistinct(s, key);
    StartsAreMultiples(s, intervalMs, parse);
    var qs := seq(|keys|, j requires 0 <= j < |keys| => keys[j] / intervalMs);
    forall j | 0 <= j < |keys| ensures lo / intervalMs <= qs[j] <= hi / intervalMs {
      StartInRange(s, intervalMs, parse, lo, hi, keys[j]);
    }
    forall j, k | 0 <= j < k < |keys| ensures qs[j] != qs[k] {
      assert keys[j] in keys && keys[k] in keys;
      QuotientDistinct(keys[j], keys[k], intervalMs);
    }
    DivMonotone(lo, hi, intervalMs);
    DistinctInRange(qs, lo / intervalMs, hi / intervalMs);
  }

  lemma QuotientDistinct(a: int, b: int, m: nat)
    requires m > 0 && a % m == 0 && b % m == 0 && a != b
    ensures a / m != b / m
  {
    assert a == m * (a / m) + a % m;
    assert b == m * (b / m) + b % m;
  }

  lemma StartInRange(s: seq<HistoryRecord>, intervalMs: nat, parse: string -> Option<int>, lo: int, hi: int, k: int)
    requires intervalMs > 0 && 0 <= lo <= hi
    requires forall i :: 0 <= i < |s| && parse(s[i].dateTime).Some? ==> lo <= parse(s[i].dateTime).value <= hi
    requires k in Starts(s, WindowKey(intervalMs, parse))
    ensures lo / intervalMs <= k / intervalMs <= hi / intervalMs
  {
    var key := WindowKey(intervalMs, parse);
    StartsOccupied(s, key, k);
    var w := InWindow(s, key, k);
    assert key(w[0]) == Some(k);
    InWindowSubset(s, key, k);
    assert w[0] in multiset(s);
    var i :| 0 <= i < |s| && s[i] == w[0];
    var t := parse(s[i].dateTime).value;
    assert k == WindowStart(t, intervalMs);
    DivMonotone(lo, t, intervalMs);
    DivMonotone(t, hi, intervalMs);
  }

  /**
   * Ten readings one minute apart, resampled into two-minute windows, give
   * at most six records.
   */
  lemma TenMinutesInTwoMinuteWindows(records: seq<HistoryRecord>, time: TimeText, t0: int)
    requires |records| == 10 && t0 >= 0
    requires forall i :: 0 <= i < 10 ==> time.parse(records[i].dateTime) == Some(t0 + 60000 * i)
    ensures |Resampled(records, 120, time)| <= 6
  {
    WindowCountBound(records, 120000, time.parse, t0, t0 + 540000);
    DivSpan(t0, 540000, 120000);
  }

  // ---------------------------------------------------------------------
  // smooth_data
  // ---------------------------------------------------------------------

  /** `i.saturating_sub(window / 2)`: where `i`'s neighbourhood starts. */
  function NeighbourhoodStart(i: nat, window: nat): nat {
    if i >= window / 2 then i - window / 2 else 0
  }

  /** `(i + window / 2 + 1).min(n)`: one past where it ends. */
  function NeighbourhoodEnd(i: nat, window: nat, n: nat): nat {
    if i + window / 2 + 1 <= n then i + window / 2 + 1 else n
  }

  /** The mean of the values around position `i`. */
  function SmoothedAt(v: seq<real>, i: nat, window: nat): real
    requires i < |v|
  {
    Mean(v[NeighbourhoodStart(i, window)..NeighbourhoodEnd(i, window, |v|)])
  }

  /**
   * `smooth_data` as a value: with fewer records than the window, or a
   * window below 2, the records pass through; otherwise each value is
   * replaced by the mean of its neighbourhood and everything else about the
   * record stays.
   */
  function Smoothed(s: seq<HistoryRecord>, window: nat): (r: seq<HistoryRecord>)
    ensures |r| == |s|
    ensures |s| < window || window < 2 ==> r == s
    ensures forall i :: 0 <= i < |s| ==> r[i] == s[i].(tagVal := r[i].tagVal)
    ensures !(|s| < window || window < 2) ==> forall i :: 0 <= i < |s| ==>
      r[i].tagVal == Mean(Vals(s)[NeighbourhoodStart(i, window)..NeighbourhoodEnd(i, window, |s|)])
  {
    if |s| < window || window < 2 then s
    else seq(|s|, i requires 0 <= i < |s| => s[i].(tagVal := SmoothedAt(Vals(s), i, window)))
  }

  /** `smooth_data`: the loop computes every neighbourhood mean, then the records take them. */
  method SmoothData(records: seq<HistoryRecord>, window: nat) returns (r: seq<HistoryRecord>)
    ensures r == Smoothed(records, window)
  {
    if |records| < window || window < 2 {
      return records;
    }
    var values := Vals(records);
    var smoothed: seq<real> := [];
    for i := 0 to |values|
      invariant |smoothed| == i
      invariant forall k :: 0 <= k < i ==> smoothed[k] == SmoothedAt(values, k, window)
    {
      var start := if i >= window / 2 then i - window / 2 else 0;
      var end := if i + window / 2 + 1 <= |values| then i + window / 2 + 1 else |values|;
      assert start == NeighbourhoodStart(i, window) && end == NeighbourhoodEnd(i, window, |values|);
      smoothed := smoothed + [Mean(values[start..end])];
    }
    r := seq(|records|, i requires 0 <= i < |records| => records[i].(tagVal := smoothed[i]));
  }

  /** Smoothing never takes a value outside the range of the input values. */
  lemma SmoothingStaysInRange(s: seq<HistoryRecord>, window: nat, lo: real, hi: real)
    requires Within(Vals(s), lo, hi)
    ensures Within(Vals(Smoothed(s, window)), lo, hi)
  {
    var r := Smoothed(s, window);
    if !(|s| < window || window < 2) {
      var v := Vals(s);
      forall i | 0 <= i < |s| ensures lo <= r[i].tagVal <= hi {
        var a, b := NeighbourhoodStart(i, window), NeighbourhoodEnd(i, window, |s|);
        assert Within(v[a..b], lo, hi);
        MeanWithin(v[a..b], lo, hi);
      }
    }
  }

  /** A constant series is left exactly as it is. */
  lemma SmoothingKeepsConstant(s: seq<HistoryRecord>, window: nat, c: real)
    requires forall i :: 0 <= i < |s| ==> s[i].tagVal == c
    ensures Smoothed(s, window) == s
  {
    var r := Smoothed(s, window);
    if !(|s| < window || window < 2) {
      var v := Vals(s);
      forall i | 0 <= i < |s| ensures r[i] == s[i] {
        var a, b := NeighbourhoodStart(i, window), NeighbourhoodEnd(i, window, |s|);
        MeanConstant(v[a..b], c);
      }
    }
  }

  /**
   * Away from the ends the neighbourhood has `2 * (window / 2) + 1`
   * values: an odd window averages `window` values, an even one
   * `window + 1`.
   */
  lemma NeighbourhoodWidth(i: nat, window: nat, n: nat)
    requires window / 2 <= i && i + window / 2 + 1 <= n
    ensures NeighbourhoodEnd(i, window, n) - NeighbourhoodStart(i, window)
      == if window % 2 == 0 then window + 1 else window
  {
  }

  // ---------------------------------------------------------------------
  // downsample
  // ---------------------------------------------------------------------

  /**
   * The records at the positions `i` with `i % step == 0`: what the inner
   * loop of `downsample` pushes. That is every `step`-th record starting
   * with the first, `ceil(|g| / step)` of them.
   */
  function EveryNth(g: seq<HistoryRecord>, step: nat): (r: seq<HistoryRecord>)
    requires step > 0
    ensures |g| == 0 <==> r == []
    ensures |g| > 0 ==> (|r| - 1) * step < |g| <= |r| * step
    ensures forall k :: 0 <= k < |r| ==> k * step < |g| && r[k] == g[k * step]
    decreases |g|
  {
    if |g| == 0 then []
    else
      var p := EveryNth(g[..|g| - 1], step);
      EveryNthStep(|g|, |p|, step);
      p + (if (|g| - 1) % step == 0 then [g[|g| - 1]] else [])
  }

  /** The count arithmetic of one more position. */
  lemma EveryNthStep(n: nat, len: nat, step: nat)
    requires step > 0 && n > 0
    requires n == 1 ==> len == 0
    requires n > 1 ==> (len - 1) * step < n - 1 <= len * step
    ensures var len' := len + (if (n - 1) % step == 0 then 1 else 0);
      (len' - 1) * step < n <= len' * step
    ensures (n - 1) % step == 0 ==> len * step == n - 1
  {
    MultipleMod(len, step);
    if n > 1 && (n - 1) % step == 0 {
      var q := (n - 1) / step;
      assert n - 1 == step * q;
      if q < len {
        MulLe(q + 1, len, step);
      } else if q > len {
        MulLe(len + 1, q, step);
      }
    }
  }

  lemma {:induction false} EveryNthSubsequence(g: seq<HistoryRecord>, step: nat)
    requires step > 0
    ensures Subsequence(EveryNth(g, step), g)
    decreases |g|
  {
    if |g| > 0 {
      var p := g[..|g| - 1];
      var x := g[|g| - 1];
      EveryNthSubsequence(p, step);
      SubsequenceSnoc(EveryNth(p, step), p, x);
      assert g == p + [x];
      if (|g| - 1) % step == 0 {
        assert EveryNth(g, step) == EveryNth(p, step) + [x];
      } else {
        assert EveryNth(g, step) == EveryNth(p, step);
      }
    }
  }

  /** One tag's records after `downsample`: all of them, or every `count / max`-th. */
  function Thinned(g: seq<HistoryRecord>, maxPoints: nat): (r: seq<HistoryRecord>)
    requires maxPoints > 0
    ensures |g| <= maxPoints ==> r == g
    ensures |g| > maxPoints ==> r == EveryNth(g, |g| / maxPoints)
  {
    if |g| <= maxPoints then g else EveryNth(g, |g| / maxPoints)
  }

  lemma EveryNthKeepsTag(g: seq<HistoryRecord>, step: nat, t: string)
    requires step > 0 && AllTagged(g, t)
    ensures AllTagged(EveryNth(g, step), t)
  {
  }

  /**
   * A tag with more than `maxPoints` records keeps every `count / maxPoints`-th
   * of them, which can be more than `maxPoints` but is always fewer than
   * `2 * maxPoints`; it is exactly `maxPoints` when the count is a multiple
   * of `maxPoints`.
   */
  lemma ThinnedSize(g: seq<HistoryRecord>, maxPoints: nat)
    requires maxPoints > 0 && |g| > maxPoints
    ensures |Thinned(g, maxPoints)| < 2 * maxPoints
    ensures |g| % maxPoints == 0 ==> |Thinned(g, maxPoints)| == maxPoints
  {
    StrideCount(|g|, maxPoints, |Thinned(g, maxPoints)|);
  }

  /** The arithmetic behind `ThinnedSize`. */
  lemma StrideCount(n: nat, maxPoints: nat, len: nat)
    requires 0 < maxPoints < n
    requires (len - 1) * (n / maxPoints) < n <= len * (n / maxPoints)
    ensures len < 2 * maxPoints
    ensures n % maxPoints == 0 ==> len == maxPoints
  {
    var step := n / maxPoints;
    var rem := n % maxPoints;
    assert n == maxPoints * step + rem;
    DivMonotone(maxPoints, n, maxPoints);
    StrideBelowTwice(maxPoints, step, rem, len);
    if rem == 0 {
      StrideExact(maxPoints, step, len);
    }
  }

  lemma StrideBelowTwice(maxPoints: nat, step: nat, rem: nat, len: nat)
    requires maxPoints > 0 && step >= 1 && rem < maxPoints
    requires (len - 1) * step < maxPoints * step + rem
    ensures len < 2 * maxPoints
  {
    if len >= 2 * maxPoints {
      MulLe(2 * maxPoints - 1, len - 1, step);
      Distrib(maxPoints, maxPoints - 1, step);
      MulLe(1, step, maxPoints);
    }
  }

  lemma StrideExact(maxPoints: nat, step: nat, len: nat)
    requires maxPoints > 0 && step >= 1
    requires (len - 1) * step < maxPoints * step <= len * step
    ensures len == maxPoints
  {
    if len - 1 >= maxPoints {
      MulLe(maxPoints, len - 1, step);
    }
    if len < maxPoints {
      MulLe(len, maxPoints - 1, step);
      Distrib(maxPoints - 1, 1, step);
    }
  }

  lemma Distrib(a: int, b: int, c: int)
    ensures (a + b) * c == a * c + b * c
  {
  }

  /** The per-tag outputs of `downsample`, in the order the tags first appear. */
  function ThinnedGroups(s: seq<HistoryRecord>, maxPoints: nat): (outs: seq<seq<HistoryRecord>>)
    requires maxPoints > 0
    ensures |outs| == |Tags(s)|
    ensures forall j :: 0 <= j < |outs| ==> outs[j] == Thinned(OfTag(s, Tags(s)[j]), maxPoints)
  {
    seq(|Tags(s)|, j requires 0 <= j < |Tags(s)| => Thinned(OfTag(s, Tags(s)[j]), maxPoints))
  }

  lemma ThinnedGroupsTagged(s: seq<HistoryRecord>, maxPoints: nat)
    requires maxPoints > 0
    ensures TaggedOutputs(Tags(s), ThinnedGroups(s, maxPoints))
  {
    TagsFacts(s);
    var outs := ThinnedGroups(s, maxPoints);
    forall j | 0 <= j < |outs| ensures AllTagged(outs[j], Tags(s)[j]) {
      var g := OfTag(s, Tags(s)[j]);
      if |g| > maxPoints {
        EveryNthKeepsTag(g, |g| / maxPoints, Tags(s)[j]);
      }
    }
  }

  /** `downsample` as a value: every tag thinned, then all sorted by time text. */
  function Downsampled(s: seq<HistoryRecord>, maxPoints: nat): (r: seq<HistoryRecord>)
    requires maxPoints > 0
    ensures Sorting.SortedBy(r, ByDateTime)
    ensures |s| == 0 ==> r == []
  {
    SortByDateTime(Concat(ThinnedGroups(s, maxPoints)))
  }

  /**
   * `downsample`: the records are grouped by tag; a tag with at most
   * `max_points_per_tag` records keeps them all, a larger one keeps the
   * positions that are multiples of `count / max_points_per_tag`; the
   * result is sorted by time text. A cap of 0 would divide by zero and is
   * excluded.
   */
  method Downsample(records: seq<HistoryRecord>, maxPointsPerTag: nat) returns (r: seq<HistoryRecord>)
    requires maxPointsPerTag > 0
    ensures r == Downsampled(records, maxPointsPerTag)
  {
    if |records| == 0 {
      return records;
    }
    var tags, groups := GroupByTag(records);
    ghost var outs := ThinnedGroups(records, maxPointsPerTag);
    var result: seq<HistoryRecord> := [];
    for j := 0 to |tags|
      invariant result == Concat(outs[..j])
    {
      assert outs[..j + 1][..j] == outs[..j];
      var tagRecords := groups[j];
      var count := |tagRecords|;
      if count <= maxPointsPerTag {
        result := result + tagRecords;
      } else {
        result := AppendEveryNth(result, tagRecords, count / maxPointsPerTag);
      }
    }
    assert outs[..|tags|] == outs;
    r := SortByDateTime(result);
  }

  /** The inner loop of `downsample`: push the records at positions `i % step == 0`. */
  method AppendEveryNth(result: seq<HistoryRecord>, g: seq<HistoryRecord>, step: nat) returns (r: seq<HistoryRecord>)
    requires step > 0
    ensures r == result + EveryNth(g, step)
  {
    r := result;
    for i := 0 to |g|
      invariant r == result + EveryNth(g[..i], step)
    {
      assert g[..i + 1][..i] == g[..i];
      if i % step == 0 {
        r := r + [g[i]];
      }
    }
    assert g[..|g|] == g;
  }

  /**
   * Under every tag, `downsample` holds exactly what thinning that tag's
   * records gives: all of them when there are at most `maxPoints`.
   */
  lemma DownsampledPerTag(s: seq<HistoryRecord>, maxPoints: nat, t: string)
    requires maxPoints > 0
    ensures multiset(OfTag(Downsampled(s, maxPoints), t)) == multiset(Thinned(OfTag(s, t), maxPoints))
  {
    ThinnedGroupsTagged(s, maxPoints);
    SortedConcatPerTag(Tags(s), ThinnedGroups(s, maxPoints), t);
    if t !in Tags(s) {
      OfTagAbsent(s, t);
    }
  }

  /** `downsample` only ever drops records: it never invents or duplicates one. */
  lemma DownsampledKeepsOnlyInputRecords(s: seq<HistoryRecord>, maxPoints: nat)
    requires maxPoints > 0
    ensures multiset(Downsampled(s, maxPoints)) <= multiset(s)
  {
    var d := Downsampled(s, maxPoints);
    forall x ensures multiset(d)[x] <= multiset(s)[x] {
      var t := x.tagName;
      OfTagCount(d, t);
      OfTagCount(s, t);
      DownsampledPerTag(s, maxPoints, t);
      var g := OfTag(s, t);
      if |g| > maxPoints {
        EveryNthSubsequence(g, |g| / maxPoints);
        SubsequenceMultiset(EveryNth(g, |g| / maxPoints), g);
      }
    }
  }

  lemma DownsampledOneTag(s: seq<HistoryRecord>, maxPoints: nat, t: string)
    requires maxPoints > 0 && |s| > 0 && AllTagged(s, t)
    ensures |Downsampled(s, maxPoints)| == |Thinned(s, maxPoints)|
  {
    TagsUniform(s, t);
    OfTagUniform(s, t, t);
    assert ThinnedGroups(s, maxPoints) == [Thinned(s, maxPoints)];
    ConcatSingle(Thinned(s, maxPoints));
  }

  /** One hundred records of one tag, capped at ten, become exactly ten. */
  lemma HundredRecordsToTen(s: seq<HistoryRecord>, t: string)
    requires |s| == 100 && AllTagged(s, t)
    ensures |Downsampled(s, 10)| == 10
  {
    DownsampledOneTag(s, 10, t);
    ThinnedSize(s, 10);
  }

  /**
   * Fifteen records of one tag, capped at ten, all stay: the stride
   * `15 / 10` is 1, so the cap is not met.
   */
  lemma FifteenRecordsExceedCapOfTen(s: seq<HistoryRecord>, t: string)
    requires |s| == 15 && AllTagged(s, t)
    ensures |Downsampled(s, 10)| == 15
  {
    DownsampledOneTag(s, 10, t);
  }
}
