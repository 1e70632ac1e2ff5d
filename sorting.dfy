/**
 * Rust's stable `sort_by`, as the source uses it on vectors it owns:
 * insertion sort under a total preorder `le`. The result is ordered, is
 * a permutation of the input, and (for an antisymmetric `le`) is the only
 * ordered permutation there is.
 */
module Sorting {

  /** Any two elements are comparable. */
  ghost predicate Total<T(!new)>(le: (T, T) -> bool) {
    forall a, b :: le(a, b) || le(b, a)
  }

  ghost predicate TotalPreorder<T(!new)>(le: (T, T) -> bool) {
    && Total(le)
    && (forall a, b, c :: le(a, b) && le(b, c) ==> le(a, c))
  }

  ghost predicate Antisymmetric<T(!new)>(le: (T, T) -> bool) {
    forall a, b :: le(a, b) && le(b, a) ==> a == b
  }

  predicate SortedBy<T>(s: seq<T>, le: (T, T) -> bool) {
    forall i, j :: 0 <= i < j < |s| ==> le(s[i], s[j])
  }

  /** Puts `x` before the first element it is not above. */
  function Insert<T(!new)>(x: T, s: seq<T>, le: (T, T) -> bool): (r: seq<T>)
    requires TotalPreorder(le) && SortedBy(s, le)
    ensures SortedBy(r, le)
    ensures multiset(r) == multiset(s) + multiset{x}
    ensures |r| == |s| + 1
  {
    if s == [] then [x]
    else if le(x, s[0]) then [x] + s
    else
      var rest := Insert(x, s[1..], le);
      assert s == [s[0]] + s[1..];
      BelowPermutation(s[0], x, s[1..], rest, le);
      [s[0]] + rest
  }

  /** A lower bound of `x` and of every element of `s` bounds every element of a permutation of them. */
  lemma BelowPermutation<T>(y: T, x: T, s: seq<T>, r: seq<T>, le: (T, T) -> bool)
    requires multiset(r) == multiset(s) + multiset{x}
    requires le(y, x) && forall k :: 0 <= k < |s| ==> le(y, s[k])
    ensures forall k :: 0 <= k < |r| ==> le(y, r[k])
  {
    forall k | 0 <= k < |r| ensures le(y, r[k]) {
      assert r[k] in multiset(r);
      if r[k] != x {
        assert r[k] in multiset(s);
        var j :| 0 <= j < |s| && s[j] == r[k];
      }
    }
  }

  function SortBy<T(!new)>(s: seq<T>, le: (T, T) -> bool): (r: seq<T>)
    requires TotalPreorder(le)
    ensures SortedBy(r, le)
    ensures multiset(r) == multiset(s)
    ensures |r| == |s|
  {
    if s == [] then []
    else
      assert s == [s[0]] + s[1..];
      Insert(s[0], SortBy(s[1..], le), le)
  }

  /** An ordered sequence starts with an element that is below every element. */
  lemma {:induction false} SortedHeadIsLeast<T(!new)>(s: seq<T>, le: (T, T) -> bool, y: T)
    requires SortedBy(s, le) && s != [] && y in multiset(s)
    requires forall a :: le(a, a)
    ensures le(s[0], y)
  {
    var j :| 0 <= j < |s| && s[j] == y;
    if j > 0 { assert le(s[0], s[j]); }
  }

  /** A total preorder is reflexive. */
  lemma Reflexive<T(!new)>(le: (T, T) -> bool)
    requires Total(le)
    ensures forall a :: le(a, a)
  {
    forall a ensures le(a, a) {
      assert le(a, a) || le(a, a);
    }
  }

  /** The tail of an ordered sequence is ordered. */
  lemma SortedTail<T>(s: seq<T>, le: (T, T) -> bool)
    requires SortedBy(s, le) && s != []
    ensures SortedBy(s[1..], le)
  {
  }

  /** Dropping the head of a sequence drops one copy of it from the multiset. */
  lemma TailMultiset<T>(s: seq<T>)
    requires s != []
    ensures multiset(s[1..]) == multiset(s) - multiset{s[0]}
  {
    assert s == [s[0]] + s[1..];
  }

  /** Permutations have the same length. */
  lemma SameLength<T>(a: seq<T>, b: seq<T>)
    requires multiset(a) == multiset(b)
    ensures |a| == |b|
  {
    assert |a| == |multiset(a)| && |b| == |multiset(b)|;
  }

  /** Sequences with the same head and the same tail are equal. */
  lemma SameHeadAndTail<T>(a: seq<T>, b: seq<T>)
    requires a != [] && b != [] && a[0] == b[0] && a[1..] == b[1..]
    ensures a == b
  {
    assert a == [a[0]] + a[1..] && b == [b[0]] + b[1..];
  }

  /** Two ordered permutations of the same elements start with the same element. */
  lemma SameHead<T(!new)>(a: seq<T>, b: seq<T>, le: (T, T) -> bool)
    requires Total(le) && Antisymmetric(le)
    requires SortedBy(a, le) && SortedBy(b, le)
    requires multiset(a) == multiset(b) && a != [] && b != []
    ensures a[0] == b[0]
  {
    Reflexive(le);
    assert a[0] in multiset(b) && b[0] in multiset(a);
    SortedHeadIsLeast(a, le, b[0]);
    SortedHeadIsLeast(b, le, a[0]);
  }

  /**
   * Under an antisymmetric total order two ordered permutations of the same
   * elements are equal: sorting forgets the input order completely.
   */
  lemma {:induction false} SortedUnique<T(!new)>(a: seq<T>, b: seq<T>, le: (T, T) -> bool)
    requires Total(le) && Antisymmetric(le)
    requires SortedBy(a, le) && SortedBy(b, le)
    requires multiset(a) == multiset(b)
    ensures a == b
    decreases |a|
  {
    SameLength(a, b);
    if a != [] {
      SameHead(a, b, le);
      TailMultiset(a);
      TailMultiset(b);
      SortedTail(a, le);
      SortedTail(b, le);
      SortedUnique(a[1..], b[1..], le);
      SameHeadAndTail(a, b);
    }
  }

  /** Inserting an element no greater than the head of an ordered sequence puts it in front. */
  lemma InsertLeast<T(!new)>(x: T, s: seq<T>, le: (T, T) -> bool)
    requires TotalPreorder(le) && SortedBy(s, le)
    requires s == [] || le(x, s[0])
    ensures Insert(x, s, le) == [x] + s
  {
  }

  /** Sorting a sequence that is already ordered changes nothing. */
  lemma {:induction false} SortOfSorted<T(!new)>(s: seq<T>, le: (T, T) -> bool)
    requires TotalPreorder(le) && SortedBy(s, le)
    ensures SortBy(s, le) == s
    decreases |s|
  {
    if s != [] {
      assert SortedBy(s[1..], le);
      SortOfSorted(s[1..], le);
      assert SortBy(s, le) == Insert(s[0], s[1..], le);
      if |s| > 1 { assert le(s[0], s[1]); }
      InsertLeast(s[0], s[1..], le);
      assert s == [s[0]] + s[1..];
    }
  }
}
