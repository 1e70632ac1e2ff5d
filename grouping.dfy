/**
 * Grouping records by tag, as the processing code does with
 * `HashMap<String, Vec<_>>` and `entry(tag).or_default().push(record)`.
 * The map's iteration order is modelled as the order in which tags first
 * appear; every property proved downstream is stated so that it does not
 * depend on that order.
 */
module Grouping {
  import opened Models

  predicate Distinct<T(==)>(s: seq<T>) {
    forall i, j :: 0 <= i < j < |s| ==> s[i] != s[j]
  }

  /** `a` is `b` with some elements left out, the rest in their order. */
  predicate Subsequence<T(==)>(a: seq<T>, b: seq<T>)
    decreases |b|
  {
    |a| == 0 || (|b| > 0 && ((a[0] == b[0] && Subsequence(a[1..], b[1..])) || Subsequence(a, b[1..])))
  }

  lemma {:induction false} SubsequenceReflexive<T>(a: seq<T>)
    ensures Subsequence(a, a)
    decreases |a|
  {
    if |a| > 0 { SubsequenceReflexive(a[1..]); }
  }

  /** Appending to `b` keeps `a` a subsequence, and appending the same element to both does too. */
  lemma {:induction false} SubsequenceSnoc<T>(a: seq<T>, b: seq<T>, x: T)
    requires Subsequence(a, b)
    ensures Subsequence(a, b + [x])
    ensures Subsequence(a + [x], b + [x])
    decreases |b|
  {
    if |a| == 0 {
      assert a + [x] == [x];
      assert (b + [x])[|b|..] == [x];
      SubsequenceSkip([x], b + [x], |b|);
    } else {
      assert (b + [x])[1..] == b[1..] + [x];
      assert (a + [x])[1..] == a[1..] + [x];
      if a[0] == b[0] && Subsequence(a[1..], b[1..]) {
        SubsequenceSnoc(a[1..], b[1..], x);
      } else {
        SubsequenceSnoc(a, b[1..], x);
      }
    }
  }

  /** Dropping a prefix of `b` that `a` does not need. */
  lemma {:induction false} SubsequenceSkip<T>(a: seq<T>, b: seq<T>, k: nat)
    requires k <= |b| && Subsequence(a, b[k..])
    ensures Subsequence(a, b)
    decreases k
  {
    if k > 0 {
      assert b[k - 1..][1..] == b[k..];
      SubsequenceSkip(a, b, k - 1);
    }
  }

  /** The distinct tag names of `s`, in order of first appearance. */
  function Tags(s: seq<HistoryRecord>): (r: seq<string>)
    ensures |r| <= |s|
    decreases |s|
  {
    if |s| == 0 then []
    else
      var prev := Tags(s[..|s| - 1]);
      var t := s[|s| - 1].tagName;
      if t in prev then prev else prev + [t]
  }

  /** Every tag occurs once, and the tags are exactly those of the records. */
  lemma {:induction false} TagsFacts(s: seq<HistoryRecord>)
    ensures Distinct(Tags(s))
    ensures forall i :: 0 <= i < |s| ==> s[i].tagName in Tags(s)
    ensures forall t :: t in Tags(s) ==> exists i :: 0 <= i < |s| && s[i].tagName == t
    decreases |s|
  {
    if |s| > 0 {
      var p := s[..|s| - 1];
      TagsFacts(p);
      assert forall i :: 0 <= i < |p| ==> p[i] == s[i];
    }
  }

  /** The records of `s` whose tag is `t`, in input order: one map entry's vector. */
  function OfTag(s: seq<HistoryRecord>, t: string): (r: seq<HistoryRecord>)
    ensures forall i :: 0 <= i < |r| ==> r[i].tagName == t
    ensures |r| <= |s|
    decreases |s|
  {
    if |s| == 0 then []
    else
      var last := s[|s| - 1];
      OfTag(s[..|s| - 1], t) + (if last.tagName == t then [last] else [])
  }

  /** A group holds every record of its tag, as often as the input does, and nothing else. */
  lemma {:induction false} OfTagCount(s: seq<HistoryRecord>, t: string)
    ensures forall x :: multiset(OfTag(s, t))[x] == if x.tagName == t then multiset(s)[x] else 0
    decreases |s|
  {
    if |s| > 0 {
      OfTagCount(s[..|s| - 1], t);
      assert s == s[..|s| - 1] + [s[|s| - 1]];
    }
  }

  lemma {:induction false} OfTagAbsent(s: seq<HistoryRecord>, t: string)
    requires t !in Tags(s)
    ensures OfTag(s, t) == []
    decreases |s|
  {
    if |s| > 0 {
      var p := s[..|s| - 1];
      assert forall u :: u in Tags(p) ==> u in Tags(s);
      OfTagAbsent(p, t);
    }
  }

  lemma {:induction false} OfTagAppend(a: seq<HistoryRecord>, b: seq<HistoryRecord>, t: string)
    ensures OfTag(a + b, t) == OfTag(a, t) + OfTag(b, t)
    decreases |b|
  {
    if |b| == 0 {
      assert a + b == a;
    } else {
      assert (a + b)[..|a + b| - 1] == a + b[..|b| - 1];
      OfTagAppend(a, b[..|b| - 1], t);
    }
  }

  /** A sequence whose records all carry tag `u` has nothing under any other tag. */
  lemma {:induction false} OfTagUniform(s: seq<HistoryRecord>, u: string, t: string)
    requires forall i :: 0 <= i < |s| ==> s[i].tagName == u
    ensures OfTag(s, t) == if t == u then s else []
    decreases |s|
  {
    if |s| > 0 {
      var p, last := s[..|s| - 1], s[|s| - 1];
      assert forall i :: 0 <= i < |p| ==> p[i] == s[i];
      OfTagUniform(p, u, t);
      if t == u {
        assert OfTag(s, t) == OfTag(p, t) + [last];
        assert s == p + [last];
      } else {
        assert last.tagName != t;
        assert OfTag(s, t) == OfTag(p, t) + [];
      }
    }
  }

  /** Restricting to a tag commutes with permutation. */
  lemma OfTagMultiset(a: seq<HistoryRecord>, b: seq<HistoryRecord>, t: string)
    requires multiset(a) == multiset(b)
    ensures multiset(OfTag(a, t)) == multiset(OfTag(b, t))
  {
    OfTagCount(a, t);
    OfTagCount(b, t);
    assert forall x :: multiset(OfTag(a, t))[x] == multiset(OfTag(b, t))[x];
  }

  /** The per-tag outputs, concatenated in the order of `tags`. */
  function Concat(outs: seq<seq<HistoryRecord>>): (r: seq<HistoryRecord>)
    decreases |outs|
  {
    if |outs| == 0 then [] else Concat(outs[..|outs| - 1]) + outs[|outs| - 1]
  }

  lemma {:induction false} ConcatLength(outs: seq<seq<HistoryRecord>>, lens: seq<nat>)
    requires |lens| == |outs| && forall j :: 0 <= j < |outs| ==> |outs[j]| == lens[j]
    ensures |Concat(outs)| == SumNat(lens)
    decreases |outs|
  {
    if |outs| > 0 {
      ConcatLength(outs[..|outs| - 1], lens[..|lens| - 1]);
    }
  }

  function SumNat(v: seq<nat>): nat
    decreases |v|
  {
    if |v| == 0 then 0 else SumNat(v[..|v| - 1]) + v[|v| - 1]
  }

  /** `tags[j]`'s output, when each output holds only records of its own tag. */
  predicate TaggedOutputs(tags: seq<string>, outs: seq<seq<HistoryRecord>>) {
    && |tags| == |outs|
    && Distinct(tags)
    && forall j, i :: 0 <= j < |outs| && 0 <= i < |outs[j]| ==> outs[j][i].tagName == tags[j]
  }

  lemma TaggedOutputsPrefix(tags: seq<string>, outs: seq<seq<HistoryRecord>>, n: nat)
    requires TaggedOutputs(tags, outs) && n <= |outs|
    ensures TaggedOutputs(tags[..n], outs[..n])
  {
    assert forall j :: 0 <= j < n ==> outs[..n][j] == outs[j] && tags[..n][j] == tags[j];
  }

  /** Under a tag that no output carries, the concatenation holds nothing. */
  lemma {:induction false} ConcatOfTagAbsent(tags: seq<string>, outs: seq<seq<HistoryRecord>>, t: string)
    requires TaggedOutputs(tags, outs) && t !in tags
    ensures OfTag(Concat(outs), t) == []
    decreases |outs|
  {
    if |outs| > 0 {
      var n := |outs| - 1;
      TaggedOutputsPrefix(tags, outs, n);
      ConcatOfTagAbsent(tags[..n], outs[..n], t);
      OfTagAppend(Concat(outs[..n]), outs[n], t);
      OfTagUniform(outs[n], tags[n], t);
    }
  }

  /**
   * Concatenating per-tag outputs loses nothing and mixes nothing: what the
   * concatenation holds under `tags[j]` is exactly `outs[j]`.
   */
  lemma {:induction false} ConcatOfTag(tags: seq<string>, outs: seq<seq<HistoryRecord>>, j: nat)
    requires TaggedOutputs(tags, outs) && j < |tags|
    ensures OfTag(Concat(outs), tags[j]) == outs[j]
    decreases |outs|
  {
    var n := |outs| - 1;
    TaggedOutputsPrefix(tags, outs, n);
    OfTagAppend(Concat(outs[..n]), outs[n], tags[j]);
    OfTagUniform(outs[n], tags[n], tags[j]);
    if j < n {
      ConcatOfTag(tags[..n], outs[..n], j);
    } else {
      assert tags[j] !in tags[..n];
      ConcatOfTagAbsent(tags[..n], outs[..n], tags[j]);
    }
  }

  /** Summed over its tags, the groups of `s` hold exactly `|s|` records. */
  function TagCounts(s: seq<HistoryRecord>, tags: seq<string>): (r: seq<nat>)
    ensures |r| == |tags|
    ensures forall j :: 0 <= j < |tags| ==> r[j] == |OfTag(s, tags[j])|
  {
    seq(|tags|, j requires 0 <= j < |tags| => |OfTag(s, tags[j])|)
  }

  lemma {:induction false} SumNatBump(a: seq<nat>, b: seq<nat>, k: nat)
    requires |a| == |b| && k < |a| && b[k] == a[k] + 1
    requires forall j :: 0 <= j < |a| && j != k ==> b[j] == a[j]
    ensures SumNat(b) == SumNat(a) + 1
    decreases |a|
  {
    var n := |a| - 1;
    if k < n {
      SumNatBump(a[..n], b[..n], k);
    } else {
      assert a[..n] == b[..n];
    }
  }

  lemma TagCountsStep(p: seq<HistoryRecord>, x: HistoryRecord, tags: seq<string>)
    ensures forall j :: 0 <= j < |tags| ==>
      TagCounts(p + [x], tags)[j] == TagCounts(p, tags)[j] + (if tags[j] == x.tagName then 1 else 0)
  {
    forall j | 0 <= j < |tags|
      ensures TagCounts(p + [x], tags)[j] == TagCounts(p, tags)[j] + (if tags[j] == x.tagName then 1 else 0)
    {
      assert (p + [x])[..|p|] == p;
    }
  }

  /** A record of a tag already seen adds one to that tag's group. */
  lemma GroupSizesSeenTag(p: seq<HistoryRecord>, x: HistoryRecord)
    requires x.tagName in Tags(p)
    ensures SumNat(TagCounts(p + [x], Tags(p + [x]))) == SumNat(TagCounts(p, Tags(p))) + 1
  {
    var s := p + [x];
    var tp := Tags(p);
    assert s[..|s| - 1] == p;
    assert Tags(s) == tp;
    TagsFacts(p);
    TagCountsStep(p, x, tp);
    var k := IndexOf(tp, x.tagName);
    SumNatBump(TagCounts(p, tp), TagCounts(s, tp), k);
  }

  /** A record of a new tag opens a group of one. */
  lemma GroupSizesNewTag(p: seq<HistoryRecord>, x: HistoryRecord)
    requires x.tagName !in Tags(p)
    ensures SumNat(TagCounts(p + [x], Tags(p + [x]))) == SumNat(TagCounts(p, Tags(p))) + 1
  {
    var s := p + [x];
    var tp := Tags(p);
    assert s[..|s| - 1] == p;
    assert Tags(s) == tp + [x.tagName];
    TagCountsStep(p, x, tp);
    OfTagAbsent(p, x.tagName);
    var after := TagCounts(s, tp + [x.tagName]);
    var before := TagCounts(p, tp);
    assert forall j :: 0 <= j < |tp| ==> after[j] == TagCounts(s, tp)[j] == before[j];
    assert after[..|tp|] == before;
    assert after[|tp|] == |OfTag(s, x.tagName)| == 1;
    assert SumNat(after) == SumNat(after[..|tp|]) + after[|tp|];
  }

  lemma {:induction false} GroupSizesTotal(s: seq<HistoryRecord>)
    ensures SumNat(TagCounts(s, Tags(s))) == |s|
    decreases |s|
  {
    if |s| > 0 {
      var p := s[..|s| - 1];
      var x := s[|s| - 1];
      GroupSizesTotal(p);
      assert s == p + [x];
      if x.tagName in Tags(p) {
        GroupSizesSeenTag(p, x);
      } else {
        GroupSizesNewTag(p, x);
      }
    }
  }

  /** Every record of `s` carries tag `t`. */
  predicate AllTagged(s: seq<HistoryRecord>, t: string) {
    forall i :: 0 <= i < |s| ==> s[i].tagName == t
  }

  /** Being of one tag depends only on which records there are, not on their order. */
  lemma AllTaggedMultiset(a: seq<HistoryRecord>, b: seq<HistoryRecord>, t: string)
    requires AllTagged(a, t) && multiset(b) <= multiset(a)
    ensures AllTagged(b, t)
  {
    forall i | 0 <= i < |b| ensures b[i].tagName == t {
      assert b[i] in multiset(a);
    }
  }

  lemma OfTagSnoc(p: seq<HistoryRecord>, x: HistoryRecord, t: string)
    ensures OfTag(p + [x], t) == OfTag(p, t) + (if x.tagName == t then [x] else [])
  {
    assert (p + [x])[..|p|] == p;
  }

  /** The position of `x` in `s`, or `|s|` when it is absent: the map lookup of `entry`. */
  function IndexOf<T(==)>(s: seq<T>, x: T): (j: nat)
    ensures j <= |s|
    ensures j < |s| ==> s[j] == x
    ensures j == |s| <==> x !in s
    decreases |s|
  {
    if |s| == 0 then 0 else if s[0] == x then 0 else 1 + IndexOf(s[1..], x)
  }

  /** The tags met so far and each one's records: the loop state of the grouping loop. */
  predicate GroupedSoFar(p: seq<HistoryRecord>, tags: seq<string>, groups: seq<seq<HistoryRecord>>) {
    && tags == Tags(p)
    && |groups| == |tags|
    && forall j :: 0 <= j < |tags| ==> groups[j] == OfTag(p, tags[j])
  }

  /** One more record joins its tag's group, or opens a group for a tag not met before. */
  lemma GroupStep(p: seq<HistoryRecord>, x: HistoryRecord, tags: seq<string>, groups: seq<seq<HistoryRecord>>)
    requires GroupedSoFar(p, tags, groups)
    ensures x.tagName in tags ==>
      var j := IndexOf(tags, x.tagName);
      GroupedSoFar(p + [x], tags, groups[j := groups[j] + [x]])
    ensures x.tagName !in tags ==> GroupedSoFar(p + [x], tags + [x.tagName], groups + [[x]])
  {
    if x.tagName in tags {
      GroupStepSeen(p, x, tags, groups);
    } else {
      GroupStepNew(p, x, tags, groups);
    }
  }

  lemma GroupStepSeen(p: seq<HistoryRecord>, x: HistoryRecord, tags: seq<string>, groups: seq<seq<HistoryRecord>>)
    requires GroupedSoFar(p, tags, groups) && x.tagName in tags
    ensures var j := IndexOf(tags, x.tagName);
      GroupedSoFar(p + [x], tags, groups[j := groups[j] + [x]])
  {
    assert (p + [x])[..|p|] == p;
    var j := IndexOf(tags, x.tagName);
    forall k | 0 <= k < |tags| ensures groups[j := groups[j] + [x]][k] == OfTag(p + [x], tags[k]) {
      OfTagSnoc(p, x, tags[k]);
      TagsFacts(p);
    }
  }

  lemma GroupStepNew(p: seq<HistoryRecord>, x: HistoryRecord, tags: seq<string>, groups: seq<seq<HistoryRecord>>)
    requires GroupedSoFar(p, tags, groups) && x.tagName !in tags
    ensures GroupedSoFar(p + [x], tags + [x.tagName], groups + [[x]])
  {
    assert (p + [x])[..|p|] == p;
    forall k | 0 <= k < |tags| ensures groups[k] == OfTag(p + [x], tags[k]) {
      OfTagSnoc(p, x, tags[k]);
    }
    OfTagAbsent(p, x.tagName);
    OfTagSnoc(p, x, x.tagName);
  }

  /**
   * The grouping loop `for record in records { groups.entry(tag).or_default().push(record) }`:
   * afterwards the map holds, for each tag, that tag's records in input order.
   */
  method GroupByTag(records: seq<HistoryRecord>) returns (tags: seq<string>, groups: seq<seq<HistoryRecord>>)
    ensures tags == Tags(records)
    ensures |groups| == |tags|
    ensures forall j :: 0 <= j < |tags| ==> groups[j] == OfTag(records, tags[j])
  {
    tags, groups := [], [];
    for i := 0 to |records|
      invariant GroupedSoFar(records[..i], tags, groups)
    {
      var x := records[i];
      assert records[..i + 1] == records[..i] + [x];
      GroupStep(records[..i], x, tags, groups);
      var j := IndexOf(tags, x.tagName);
      if j < |tags| {
        groups := groups[j := groups[j] + [x]];
      } else {
        tags := tags + [x.tagName];
        groups := groups + [[x]];
      }
    }
    assert records[..|records|] == records;
  }

  /**
   * Regrouping per-tag outputs and sorting them by time: under each tag the
   * result holds exactly that tag's output, and nothing under other tags.
   */
  lemma SortedConcatPerTag(tags: seq<string>, outs: seq<seq<HistoryRecord>>, t: string)
    requires TaggedOutputs(tags, outs)
    ensures multiset(OfTag(SortByDateTime(Concat(outs)), t))
      == if t in tags then multiset(outs[IndexOf(tags, t)]) else multiset{}
  {
    OfTagMultiset(SortByDateTime(Concat(outs)), Concat(outs), t);
    if t in tags {
      ConcatOfTag(tags, outs, IndexOf(tags, t));
    } else {
      ConcatOfTagAbsent(tags, outs, t);
    }
  }

  /** Distinct integers drawn from `[a, b]` number at most `b - a + 1`. */
  lemma {:induction false} DistinctInRange(xs: seq<int>, a: int, b: int)
    requires a <= b + 1 && Distinct(xs)
    requires forall i :: 0 <= i < |xs| ==> a <= xs[i] <= b
    ensures |xs| <= b - a + 1
    decreases b - a + 1
  {
    if |xs| > 0 {
      assert a <= xs[0] <= b;
      if b in xs {
        var i :| 0 <= i < |xs| && xs[i] == b;
        var rest := xs[..i] + xs[i + 1..];
        assert forall k :: 0 <= k < |rest| ==> rest[k] == (if k < i then xs[k] else xs[k + 1]);
        assert forall k :: 0 <= k < |rest| ==> rest[k] != b;
        DistinctInRange(rest, a, b - 1);
      } else {
        assert forall k :: 0 <= k < |xs| ==> xs[k] != b;
        DistinctInRange(xs, a, b - 1);
      }
    }
  }

  lemma {:induction false} SubsequenceMultiset<T>(a: seq<T>, b: seq<T>)
    requires Subsequence(a, b)
    ensures multiset(a) <= multiset(b)
    decreases |b|
  {
    if |a| > 0 {
      assert b == [b[0]] + b[1..];
      if a[0] == b[0] && Subsequence(a[1..], b[1..]) {
        SubsequenceMultiset(a[1..], b[1..]);
        assert a == [a[0]] + a[1..];
      } else {
        SubsequenceMultiset(a, b[1..]);
      }
    }
  }

  /** Records of a single tag form a single group. */
  lemma {:induction false} TagsUniform(s: seq<HistoryRecord>, t: string)
    requires |s| > 0 && AllTagged(s, t)
    ensures Tags(s) == [t]
    decreases |s|
  {
    if |s| > 1 {
      TagsUniform(s[..|s| - 1], t);
    }
  }

  lemma ConcatSingle(g: seq<HistoryRecord>)
    ensures Concat([g]) == g
  {
    assert [g][..0] == [];
  }

  lemma {:induction false} DistinctCount<T>(s: seq<T>, x: T)
    requires Distinct(s)
    ensures multiset(s)[x] <= 1
    decreases |s|
  {
    if |s| > 0 {
      var p := s[..|s| - 1];
      DistinctCount(p, x);
      assert s == p + [s[|s| - 1]];
    }
  }

  lemma DuplicateCount<T>(s: seq<T>, i: nat, j: nat)
    requires i < j < |s| && s[i] == s[j]
    ensures multiset(s)[s[i]] >= 2
  {
    assert s == s[..i] + [s[i]] + s[i + 1..j] + [s[j]] + s[j + 1..];
  }

  /** A permutation of a sequence without repeats has none either. */
  lemma PermutationDistinct<T>(a: seq<T>, b: seq<T>)
    requires Distinct(a) && multiset(a) == multiset(b)
    ensures Distinct(b)
  {
    forall i, j | 0 <= i < j < |b| ensures b[i] != b[j] {
      if b[i] == b[j] {
        DuplicateCount(b, i, j);
        DistinctCount(a, b[i]);
      }
    }
  }

  lemma {:induction false} SubsequenceLength<T>(a: seq<T>, b: seq<T>)
    requires Subsequence(a, b)
    ensures |a| <= |b|
    decreases |b|
  {
    if |a| > 0 {
      if a[0] == b[0] && Subsequence(a[1..], b[1..]) {
        SubsequenceLength(a[1..], b[1..]);
      } else {
        SubsequenceLength(a, b[1..]);
      }
    }
  }
}
