/**
 * Tag groups: a named group of up to ten charts, each chart showing up to
 * five tags, with the processing configuration applied to the group's
 * queries and its creation and update times.
 */
module TagGroups {
  import opened Wrappers
  import opened Checks
  import opened Strings
  import opened Sorting
  import ProcessingConfig

  /**
   * A reading of the local clock: the time as text
   * (`%Y-%m-%dT%H:%M:%S`) and in milliseconds since the epoch.
   */
  datatype Clock = Clock(text: string, millis: nat)

  // ---------------------------------------------------------------------
  // Charts
  // ---------------------------------------------------------------------

  /** `ChartConfig`. */
  datatype ChartConfig = ChartConfig(id: string, name: string, tags: seq<string>)

  /** The most tags one chart may show. */
  const MaxTagsPerChart := 5

  /** `ChartConfig::new`: a chart named `name` with id "c" and the clock's milliseconds, without tags. */
  function NewChart(name: string, now: Clock): (c: ChartConfig)
    ensures c.name == name && c.tags == []
    ensures IsPrefix("c", c.id) && c.id[1..] == NatToString(now.millis)
  {
    var id := "c" + NatToString(now.millis);
    assert id[..1] == "c";
    ChartConfig(id, name, [])
  }

  /** `ChartConfig::with_id`: a chart with the given id and name, without tags. */
  function ChartWithId(id: string, name: string): (c: ChartConfig)
    ensures c.id == id && c.name == name && c.tags == []
  {
    ChartConfig(id, name, [])
  }

  /** `with_tags`: the same chart showing `tags` instead of its former tags. */
  function WithTags(c: ChartConfig, tags: seq<string>): (r: ChartConfig)
    ensures r.tags == tags && r.id == c.id && r.name == c.name
  {
    c.(tags := tags)
  }

  /** The text of a chart's error: its name and its number of tags. */
  function TooManyTagsMsg(name: string, count: nat): (msg: string)
    ensures Contains(msg, name) && Contains(msg, NatToString(count))
  {
    var head := "图表 '";
    var middle := "' 最多包含 5 个标签，当前 ";
    var msg := head + name + middle + NatToString(count);
    ContainsMiddle(head, name, middle + NatToString(count));
    assert head + name + (middle + NatToString(count)) == msg;
    ContainsMiddle(head + name + middle, NatToString(count), "");
    assert head + name + middle + NatToString(count) + "" == msg;
    msg
  }

  /**
   * `ChartConfig::validate`: a chart may show at most five tags; the error
   * names the chart and its number of tags.
   */
  function ValidateChart(c: ChartConfig): (r: Verdict)
    ensures r.Accept? <==> |c.tags| <= MaxTagsPerChart
    ensures r.Reject? ==> Contains(r.reason, c.name) && Contains(r.reason, NatToString(|c.tags|))
  {
    if |c.tags| > MaxTagsPerChart then Reject(TooManyTagsMsg(c.name, |c.tags|)) else Accept
  }

  /** The position of the first chart with more than five tags, if there is one. */
  function FirstInvalidChart(charts: seq<ChartConfig>): (r: Option<nat>)
    ensures r.None? <==> forall i :: 0 <= i < |charts| ==> |charts[i].tags| <= MaxTagsPerChart
    ensures r.Some? ==> (r.value < |charts| && |charts[r.value].tags| > MaxTagsPerChart
                         && forall j :: 0 <= j < r.value ==> |charts[j].tags| <= MaxTagsPerChart)
  {
    if charts == [] then None
    else if |charts[0].tags| > MaxTagsPerChart then Some(0)
    else match FirstInvalidChart(charts[1..])
      case None => None
      case Some(i) => Some(i + 1)
  }

  /**
   * The loop `for chart in &charts { chart.validate()?; }`: the error of
   * the first invalid chart, if there is one.
   */
  function ValidateCharts(charts: seq<ChartConfig>): (r: Verdict)
    ensures r.Accept? <==> forall i :: 0 <= i < |charts| ==> ValidateChart(charts[i]).Accept?
    ensures r.Reject? ==> exists i :: (0 <= i < |charts| && r == ValidateChart(charts[i])
                                       && forall j :: 0 <= j < i ==> ValidateChart(charts[j]).Accept?)
  {
    match FirstInvalidChart(charts)
    case None => Accept
    case Some(i) => ValidateChart(charts[i])
  }

  // ---------------------------------------------------------------------
  // Groups
  // ---------------------------------------------------------------------

  /** `TagGroup`. */
  datatype TagGroup = TagGroup(
    id: string, name: string, charts: seq<ChartConfig>,
    processingConfig: ProcessingConfig.DataProcessingConfig,
    createdAt: string, updatedAt: string)

  /** The most charts one group may hold. */
  const MaxChartsPerGroup := 10

  const EmptyNameMsg: string := "分组名称不能为空"
  const TooManyChartsMsg: string := "每个分组最多包含 10 个图表"

  /**
   * The checks `new` and `update` make before anything else, in their
   * order: a name that is not blank, at most ten charts, every chart
   * valid.
   */
  function ValidateGroup(name: string, charts: seq<ChartConfig>): (r: Verdict)
    ensures r.Accept? <==> Trim(name) != [] && |charts| <= MaxChartsPerGroup && ValidateCharts(charts).Accept?
    ensures Trim(name) == [] ==> r == Reject(EmptyNameMsg)
    ensures Trim(name) != [] && |charts| > MaxChartsPerGroup ==> r == Reject(TooManyChartsMsg)
    ensures Trim(name) != [] && |charts| <= MaxChartsPerGroup ==> r == ValidateCharts(charts)
  {
    if Trim(name) == [] then Reject(EmptyNameMsg)
    else if |charts| > MaxChartsPerGroup then Reject(TooManyChartsMsg)
    else ValidateCharts(charts)
  }

  /** A name of white space only is blank: `trim` leaves nothing of it. */
  lemma BlankNameIsEmpty(name: string)
    requires forall i :: 0 <= i < |name| ==> IsWhitespace(name[i])
    ensures Trim(name) == []
    ensures ValidateGroup(name, []) == Reject(EmptyNameMsg)
  {
  }

  /**
   * `TagGroup::new`: on passing the checks, a group with id "g" and the
   * clock's milliseconds, the trimmed name, the given charts, the default
   * processing configuration, and the same creation and update time.
   */
  function NewGroup(name: string, charts: seq<ChartConfig>, now: Clock): (r: Outcome<TagGroup>)
    ensures r.Pass? <==> ValidateGroup(name, charts).Accept?
    ensures r.Fail? ==> r.reason == ValidateGroup(name, charts).reason
    ensures r.Pass? ==> && r.value.name == Trim(name) && r.value.charts == charts
                        && r.value.processingConfig == ProcessingConfig.Default()
                        && r.value.createdAt == now.text && r.value.updatedAt == now.text
                        && IsPrefix("g", r.value.id) && r.value.id[1..] == NatToString(now.millis)
  {
    var v := ValidateGroup(name, charts);
    if v.Reject? then Fail(v.reason)
    else
      var id := "g" + NatToString(now.millis);
      assert id[..1] == "g";
      Pass(TagGroup(id, Trim(name), charts, ProcessingConfig.Default(), now.text, now.text))
  }

  /** `TagGroup::with_id`: a group built as given, unchecked, with the default processing configuration. */
  function GroupWithId(id: string, name: string, charts: seq<ChartConfig>, createdAt: string, updatedAt: string): (g: TagGroup)
    ensures g.id == id && g.name == name && g.charts == charts
    ensures g.processingConfig == ProcessingConfig.Default()
    ensures g.createdAt == createdAt && g.updatedAt == updatedAt
  {
    TagGroup(id, name, charts, ProcessingConfig.Default(), createdAt, updatedAt)
  }

  /**
   * `TagGroup::update`: the group after the update, or the reason it was
   * refused, in which case the group stays as it was. An update sets the
   * trimmed name, the charts and the update time, and the processing
   * configuration only when one is given; the id and the creation time
   * stay.
   */
  function Update(g: TagGroup, name: string, charts: seq<ChartConfig>,
                  config: Option<ProcessingConfig.DataProcessingConfig>, now: Clock): (r: Outcome<TagGroup>)
    ensures r.Pass? <==> ValidateGroup(name, charts).Accept?
    ensures r.Fail? ==> r.reason == ValidateGroup(name, charts).reason
    ensures r.Pass? ==> && r.value.id == g.id && r.value.createdAt == g.createdAt
                        && r.value.name == Trim(name) && r.value.charts == charts
                        && r.value.processingConfig == config.GetOr(g.processingConfig)
                        && r.value.updatedAt == now.text
  {
    var v := ValidateGroup(name, charts);
    if v.Reject? then Fail(v.reason)
    else
      var processingConfig := match config case Some(c) => c case None => g.processingConfig;
      Pass(g.(name := Trim(name), charts := charts, processingConfig := processingConfig, updatedAt := now.text))
  }

  /** Creating a group and updating it with the same input gives the same name and charts. */
  lemma UpdateAgreesWithNew(g: TagGroup, name: string, charts: seq<ChartConfig>, now: Clock)
    ensures NewGroup(name, charts, now).Pass? <==> Update(g, name, charts, None, now).Pass?
    ensures NewGroup(name, charts, now).Pass? ==>
      && NewGroup(name, charts, now).value.name == Update(g, name, charts, None, now).value.name
      && NewGroup(name, charts, now).value.charts == Update(g, name, charts, None, now).value.charts
  {
  }

  // ---------------------------------------------------------------------
  // All tags of a group
  // ---------------------------------------------------------------------

  /** The tags of the charts one after the other (`flat_map`). */
  function Flatten(charts: seq<ChartConfig>): seq<string> {
    if charts == [] then [] else charts[0].tags + Flatten(charts[1..])
  }

  /** A tag is in the flattened list exactly when some chart shows it. */
  lemma {:induction false} FlattenMembers(charts: seq<ChartConfig>, t: string)
    ensures t in Flatten(charts) <==> exists i :: 0 <= i < |charts| && t in charts[i].tags
  {
    if charts != [] {
      FlattenMembers(charts[1..], t);
      if t in Flatten(charts[1..]) {
        var i :| 0 <= i < |charts[1..]| && t in charts[1..][i].tags;
        assert charts[i + 1] == charts[1..][i];
      }
      if exists i :: 0 <= i < |charts| && t in charts[i].tags {
        var i :| 0 <= i < |charts| && t in charts[i].tags;
        if i > 0 {
          assert charts[1..][i - 1] == charts[i];
        }
      }
    }
  }

  /** `Vec::dedup`: each run of equal neighbours kept once. */
  function Dedup(s: seq<string>): (r: seq<string>)
    ensures |r| <= |s|
    ensures s != [] ==> r != [] && r[0] == s[0]
  {
    if |s| <= 1 then s
    else if s[0] == s[1] then Dedup(s[1..])
    else [s[0]] + Dedup(s[1..])
  }

  /** Removing repeated neighbours keeps every element. */
  lemma {:induction false} DedupMembers(s: seq<string>, t: string)
    ensures t in Dedup(s) <==> t in s
  {
    if |s| > 1 {
      DedupMembers(s[1..], t);
      assert s == [s[0]] + s[1..];
    }
  }

  /** Ascending and without repeats. */
  predicate StrictlyAscending(s: seq<string>) {
    SortedBy(s, StrLe) && forall i, j :: 0 <= i < j < |s| ==> s[i] != s[j]
  }

  /** Removing repeated neighbours of an ascending list leaves it strictly ascending. */
  lemma {:induction false} DedupOfSorted(s: seq<string>)
    requires SortedBy(s, StrLe)
    ensures StrictlyAscending(Dedup(s))
  {
    if |s| > 1 {
      assert SortedBy(s[1..], StrLe);
      DedupOfSorted(s[1..]);
      if s[0] != s[1] {
        var rest := Dedup(s[1..]);
        var r := [s[0]] + rest;
        forall k | 0 <= k < |rest| ensures StrLe(s[0], rest[k]) && s[0] != rest[k] {
          DedupMembers(s[1..], rest[k]);
          var m :| 1 <= m < |s| && s[m] == rest[k];
          if s[0] == rest[k] {
            assert StrLe(s[1], s[m]) || m == 1;
            if m != 1 {
              StrLeAntisymmetric(s[0], s[1]);
            }
          }
        }
        assert StrictlyAscending(r) by {
          forall i, j | 0 <= i < j < |r| ensures StrLe(r[i], r[j]) && r[i] != r[j] {
            if i > 0 {
              assert r[i] == rest[i - 1] && r[j] == rest[j - 1];
            } else {
              assert r[j] == rest[j - 1];
            }
          }
        }
      }
    }
  }

  /** `all_tags`: the tags of all charts, sorted, each once. */
  function AllTags(g: TagGroup): seq<string> {
    Dedup(SortStrings(Flatten(g.charts)))
  }

  /**
   * The tags of a group are strictly ascending and are exactly the tags
   * some chart of the group shows.
   */
  lemma AllTagsFacts(g: TagGroup, t: string)
    ensures StrictlyAscending(AllTags(g))
    ensures t in AllTags(g) <==> exists i :: 0 <= i < |g.charts| && t in g.charts[i].tags
  {
    var flat := Flatten(g.charts);
    var sorted := SortStrings(flat);
    DedupOfSorted(sorted);
    DedupMembers(sorted, t);
    assert t in sorted <==> t in multiset(flat);
    FlattenMembers(g.charts, t);
  }

  /** The tags of two charts are the first chart's followed by the second's. */
  lemma FlattenPair(charts: seq<ChartConfig>)
    requires |charts| == 2
    ensures Flatten(charts) == charts[0].tags + charts[1].tags
  {
    var rest := charts[1..];
    assert Flatten(rest[1..]) == [];
    assert Flatten(rest) == rest[0].tags + [];
  }

  /** An ascending list of strings is its own sorted form. */
  lemma SortAscending(s: seq<string>)
    requires SortedBy(s, StrLe)
    ensures SortStrings(s) == s
  {
    StrLeIsOrder();
    SortOfSorted(s, StrLe);
  }

  /** [a, b, b, c] is ascending when a <= b <= c. */
  lemma OverlapAscending(a: string, b: string, c: string)
    requires StrLe(a, b) && StrLe(b, c)
    ensures SortedBy([a, b, b, c], StrLe)
  {
    StrLeReflexive(b);
    StrLeTransitive(a, b, c);
    var s := [a, b, b, c];
    forall i, j | 0 <= i < j < 4 ensures StrLe(s[i], s[j]) {
    }
  }

  /** Deduplicating [a, b, b, c] keeps the middle tag once. */
  lemma DedupOverlap(a: string, b: string, c: string)
    requires a != b && b != c
    ensures Dedup([a, b, b, c]) == [a, b, c]
  {
    assert Dedup([b, c]) == [b] + Dedup([c]);
    assert [a, b, b, c][1..] == [b, b, c];
    assert [b, b, c][1..] == [b, c];
  }

  /**
   * Two charts with overlapping tags, [a, b] and [b, c] for a < b < c,
   * give each tag once: [a, b, c].
   */
  lemma AllTagsMergesOverlap(g: TagGroup, a: string, b: string, c: string)
    requires StrLe(a, b) && StrLe(b, c) && a != b && b != c
    requires |g.charts| == 2 && g.charts[0].tags == [a, b] && g.charts[1].tags == [b, c]
    ensures AllTags(g) == [a, b, c]
  {
    FlattenPair(g.charts);
    assert Flatten(g.charts) == [a, b, b, c];
    OverlapAscending(a, b, c);
    SortAscending([a, b, b, c]);
    DedupOverlap(a, b, c);
  }

  /** `TagGroupConfig`: the version of the file layout and the stored groups. */
  datatype TagGroupConfig = TagGroupConfig(version: nat, groups: seq<TagGroup>)

  /** `TagGroupConfig::new`: version 1, no groups. */
  function NewConfig(): (c: TagGroupConfig)
    ensures c.version == 1 && c.groups == []
  {
    TagGroupConfig(1, [])
  }
}
