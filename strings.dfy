/**
 * String helpers the source takes from Rust's `str` and `String`:
 * lexicographic comparison (`Ord for str`), `contains`, `replace`,
 * `join`, `trim`, and decimal formatting of an unsigned integer.
 */
module Strings {
  import Sorting

  /** `a <= b` in Rust's ordering of strings: code point by code point, a prefix first. */
  predicate StrLe(a: string, b: string)
    decreases |a|
  {
    if |a| == 0 then true
    else if |b| == 0 then false
    else if a[0] != b[0] then a[0] < b[0]
    else StrLe(a[1..], b[1..])
  }

  lemma {:induction false} StrLeReflexive(a: string)
    ensures StrLe(a, a)
    decreases |a|
  {
    if |a| > 0 { StrLeReflexive(a[1..]); }
  }

  lemma {:induction false} StrLeTotal(a: string, b: string)
    ensures StrLe(a, b) || StrLe(b, a)
    decreases |a|
  {
    if |a| > 0 && |b| > 0 && a[0] == b[0] { StrLeTotal(a[1..], b[1..]); }
  }

  lemma {:induction false} StrLeTransitive(a: string, b: string, c: string)
    requires StrLe(a, b) && StrLe(b, c)
    ensures StrLe(a, c)
    decreases |a|
  {
    if |a| > 0 && |b| > 0 && |c| > 0 && a[0] == b[0] && b[0] == c[0] {
      StrLeTransitive(a[1..], b[1..], c[1..]);
    }
  }

  lemma {:induction false} StrLeAntisymmetric(a: string, b: string)
    requires StrLe(a, b) && StrLe(b, a)
    ensures a == b
    decreases |a|
  {
    if |a| > 0 && |b| > 0 {
      StrLeAntisymmetric(a[1..], b[1..]);
      assert a == [a[0]] + a[1..] && b == [b[0]] + b[1..];
    }
  }

  lemma StrLeIsOrder()
    ensures Sorting.TotalPreorder(StrLe) && Sorting.Antisymmetric(StrLe)
  {
    forall a, b ensures StrLe(a, b) || StrLe(b, a) { StrLeTotal(a, b); }
    forall a, b, c | StrLe(a, b) && StrLe(b, c) ensures StrLe(a, c) { StrLeTransitive(a, b, c); }
    forall a, b | StrLe(a, b) && StrLe(b, a) ensures a == b { StrLeAntisymmetric(a, b); }
  }

  /** `Vec<String>::sort`: the strings in ascending order. */
  function SortStrings(s: seq<string>): (r: seq<string>)
    ensures Sorting.SortedBy(r, StrLe)
    ensures multiset(r) == multiset(s)
    ensures |r| == |s|
  {
    StrLeIsOrder();
    Sorting.SortBy(s, StrLe)
  }

  /** Sorting forgets the input order: permutations sort to the same sequence. */
  lemma SortStringsUnique(a: seq<string>, b: seq<string>)
    ensures SortStrings(a) == SortStrings(b) <==> multiset(a) == multiset(b)
  {
    if multiset(a) == multiset(b) {
      StrLeIsOrder();
      Sorting.SortedUnique(SortStrings(a), SortStrings(b), StrLe);
    }
  }

  /** `s.starts_with(p)`. */
  predicate IsPrefix(p: string, s: string) {
    |p| <= |s| && s[..|p|] == p
  }

  /** `s.contains(sub)`: `sub` occurs somewhere in `s`. */
  predicate Contains(s: string, sub: string)
    decreases |s|
  {
    IsPrefix(sub, s) || (|s| > 0 && Contains(s[1..], sub))
  }

  lemma {:induction false} ContainsMiddle(a: string, sub: string, b: string)
    ensures Contains(a + sub + b, sub)
    decreases |a|
  {
    if |a| == 0 {
      assert a + sub + b == sub + b;
      assert (sub + b)[..|sub|] == sub;
    } else {
      assert (a + sub + b)[1..] == a[1..] + sub + b;
      ContainsMiddle(a[1..], sub, b);
    }
  }

  lemma {:induction false} ContainsAt(s: string, i: nat, sub: string)
    requires i + |sub| <= |s| && s[i..i + |sub|] == sub
    ensures Contains(s, sub)
  {
    if i == 0 {
      assert IsPrefix(sub, s);
    } else {
      assert s[1..][i - 1..i - 1 + |sub|] == sub;
      ContainsAt(s[1..], i - 1, sub);
    }
  }

  /** A string cannot contain a pattern that has a character it lacks. */
  lemma {:induction false} NotContainsMissingChar(s: string, sub: string, c: char)
    requires c in sub && c !in s
    ensures !Contains(s, sub)
    decreases |s|
  {
    if |s| > 0 {
      assert forall x :: x in s[1..] ==> x in s;
      NotContainsMissingChar(s[1..], sub, c);
    }
  }

  /** Every `sub` inside `s` is also inside any string that contains `s`. */
  lemma {:induction false} ContainsTransitive(big: string, s: string, sub: string)
    requires Contains(big, s) && Contains(s, sub)
    ensures Contains(big, sub)
    decreases |big|
  {
    if IsPrefix(s, big) {
      var rest := big[|s|..];
      assert big == s + rest;
      PrefixContains(s, rest, sub);
    } else {
      ContainsTransitive(big[1..], s, sub);
    }
  }

  lemma {:induction false} PrefixContains(s: string, rest: string, sub: string)
    requires Contains(s, sub)
    ensures Contains(s + rest, sub)
    decreases |s|
  {
    if IsPrefix(sub, s) {
      assert (s + rest)[..|sub|] == s[..|sub|];
    } else {
      assert (s + rest)[1..] == s[1..] + rest;
      PrefixContains(s[1..], rest, sub);
    }
  }

  /** `s.replace(c, rep)` for a single-character pattern. */
  function ReplaceChar(s: string, c: char, rep: string): (r: string)
    ensures c !in rep ==> c !in r
    ensures c !in s ==> r == s
  {
    if s == [] then ""
    else (if s[0] == c then rep else [s[0]]) + ReplaceChar(s[1..], c, rep)
  }

  lemma {:induction false} ReplaceCharAppend(s: string, t: string, c: char, rep: string)
    ensures ReplaceChar(s + t, c, rep) == ReplaceChar(s, c, rep) + ReplaceChar(t, c, rep)
    decreases |s|
  {
    if s != [] {
      assert (s + t)[1..] == s[1..] + t;
      ReplaceCharAppend(s[1..], t, c, rep);
    } else {
      assert s + t == t;
    }
  }

  /** `parts.join(sep)`. */
  function Join(parts: seq<string>, sep: string): (r: string)
    ensures |parts| == 1 ==> r == parts[0]
    ensures forall i :: 0 <= i < |parts| ==> Contains(r, parts[i])
  {
    if |parts| == 0 then ""
    else if |parts| == 1 then
      assert parts[0] == "" + parts[0] + "";
      ContainsMiddle("", parts[0], "");
      parts[0]
    else
      var rest := Join(parts[1..], sep);
      var r := parts[0] + sep + rest;
      ContainsMiddle("", parts[0], sep + rest);
      assert "" + parts[0] + (sep + rest) == r;
      assert forall i :: 1 <= i < |parts| ==> Contains(rest, parts[i]) by {
        forall i | 1 <= i < |parts| ensures Contains(rest, parts[i]) {
          assert parts[i] == parts[1..][i - 1];
        }
      }
      ContainsMiddle(parts[0] + sep, rest, "");
      assert parts[0] + sep + rest + "" == r;
      forall i | 1 <= i < |parts| ensures Contains(r, parts[i]) {
        ContainsTransitive(r, rest, parts[i]);
      }
      r
  }

  /** Unicode `White_Space`, the set `str::trim` strips. */
  predicate IsWhitespace(c: char) {
    ('\U{9}' <= c <= '\U{D}') || c == '\U{20}' || c == '\U{85}' || c == '\U{A0}'
    || c == '\U{1680}' || ('\U{2000}' <= c <= '\U{200A}') || c == '\U{2028}' || c == '\U{2029}'
    || c == '\U{202F}' || c == '\U{205F}' || c == '\U{3000}'
  }

  function TrimStart(s: string): (r: string)
    ensures |r| <= |s| && r == s[|s| - |r|..]
    ensures r == [] || !IsWhitespace(r[0])
    ensures forall i :: 0 <= i < |s| - |r| ==> IsWhitespace(s[i])
  {
    if s != [] && IsWhitespace(s[0]) then TrimStart(s[1..]) else s
  }

  function TrimEnd(s: string): (r: string)
    ensures |r| <= |s| && r == s[..|r|]
    ensures r == [] || !IsWhitespace(r[|r| - 1])
    ensures forall i :: |r| <= i < |s| ==> IsWhitespace(s[i])
  {
    if s != [] && IsWhitespace(s[|s| - 1]) then TrimEnd(s[..|s| - 1]) else s
  }

  /**
   * `s.trim()`: `s` without its leading and trailing white space. The result
   * starts and ends with a non-space character, and a string with no white
   * space at either end comes back unchanged.
   */
  function Trim(s: string): (r: string)
    ensures |r| <= |s|
    ensures r == [] || (!IsWhitespace(r[0]) && !IsWhitespace(r[|r| - 1]))
    ensures (s == [] || (!IsWhitespace(s[0]) && !IsWhitespace(s[|s| - 1]))) ==> r == s
  {
    var t := TrimStart(s);
    TrimEndKeepsStart(t);
    TrimmedUnchanged(s);
    TrimEnd(t)
  }

  /** Trimming the end keeps the first character of what remains. */
  lemma TrimEndKeepsStart(t: string)
    ensures TrimEnd(t) == [] || TrimEnd(t)[0] == t[0]
  {
  }

  /** Neither end of a string without white space at either end is touched. */
  lemma TrimmedUnchanged(s: string)
    ensures s == [] || (!IsWhitespace(s[0]) && !IsWhitespace(s[|s| - 1])) ==> TrimStart(s) == s && TrimEnd(s) == s
  {
  }

  function DigitChar(d: nat): (c: char)
    requires d < 10
    ensures '0' <= c <= '9'
  {
    ['0', '1', '2', '3', '4', '5', '6', '7', '8', '9'][d]
  }

  /** Decimal text of `n`, as `format!("{}", n)` writes an unsigned integer. */
  function NatToString(n: nat): (r: string)
    ensures |r| >= 1 && forall i :: 0 <= i < |r| ==> '0' <= r[i] <= '9'
    ensures n < 10 ==> r == [DigitChar(n)]
  {
    if n < 10 then [DigitChar(n)] else NatToString(n / 10) + [DigitChar(n % 10)]
  }

  /** The value of a string of decimal digits: the inverse of NatToString. */
  function DigitsValue(s: string): nat
    requires forall i :: 0 <= i < |s| ==> '0' <= s[i] <= '9'
  {
    if s == [] then 0 else 10 * DigitsValue(s[..|s| - 1]) + ((s[|s| - 1] as int) - ('0' as int))
  }

  lemma {:induction false} NatToStringRoundTrip(n: nat)
    ensures DigitsValue(NatToString(n)) == n
  {
    if n >= 10 {
      NatToStringRoundTrip(n / 10);
      var s := NatToString(n);
      assert s[..|s| - 1] == NatToString(n / 10);
    }
    var d := n % 10;
    assert (DigitChar(d) as int) - ('0' as int) == d;
  }
}
