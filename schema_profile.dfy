/**
 * What every schema profile shares: the default column names and the
 * tag filter it splices into a history query.
 *
 * Text placed inside SQL is escaped by doubling one character. A
 * character string literal is enclosed in `'` with each `'` inside
 * written twice, as the `<quote symbol>` of section 5.3 of ISO/IEC
 * 9075:1992 (SQL-92) prescribes; a T-SQL delimited identifier is
 * enclosed in `[` `]` with each `]` inside written twice.
 */
module SchemaProfile {
  import opened Wrappers
  import opened Strings

  /** The default column names (`tag_column_name` and the other accessors). */
  const TagColumn: string := "TagName"
  const DateTimeColumn: string := "DateTime"
  const ValueColumn: string := "TagVal"
  const QualityColumn: string := "TagQuality"

  // ---------------------------------------------------------------------
  // Escaping by doubling
  // ---------------------------------------------------------------------

  /** `s.replace(c, cc)`: every `c` written twice. */
  function Escape(s: string, c: char): string {
    ReplaceChar(s, c, [c, c])
  }

  /** Every `c` in `s` is the first of a pair `cc`: the form an escaped text has. */
  predicate Doubled(s: string, c: char)
    decreases |s|
  {
    if s == [] then true
    else if s[0] != c then Doubled(s[1..], c)
    else |s| >= 2 && s[1] == c && Doubled(s[2..], c)
  }

  /** Collapses each pair `cc` back to one `c`. */
  function Unescape(s: string, c: char): string
    decreases |s|
  {
    if s == [] then []
    else if s[0] == c && |s| >= 2 && s[1] == c then [c] + Unescape(s[2..], c)
    else [s[0]] + Unescape(s[1..], c)
  }

  /** Escaping yields a doubled text, and collapsing the pairs recovers the original. */
  lemma {:induction false} EscapeRoundTrip(s: string, c: char)
    ensures Doubled(Escape(s, c), c)
    ensures Unescape(Escape(s, c), c) == s
    decreases |s|
  {
    if s != [] {
      EscapeRoundTrip(s[1..], c);
      var e := Escape(s, c);
      if s[0] == c {
        assert e == [c, c] + Escape(s[1..], c);
        assert e[2..] == Escape(s[1..], c);
      } else {
        assert e == [s[0]] + Escape(s[1..], c);
        assert e[1..] == Escape(s[1..], c);
      }
    }
  }

  /** Conversely every doubled text is the escaped form of its collapsed text. */
  lemma {:induction false} UnescapeRoundTrip(s: string, c: char)
    requires Doubled(s, c)
    ensures Escape(Unescape(s, c), c) == s
    decreases |s|
  {
    if s != [] {
      if s[0] == c {
        UnescapeRoundTrip(s[2..], c);
        var u := Unescape(s[2..], c);
        assert Unescape(s, c) == [c] + u;
        assert ([c] + u)[1..] == u;
        assert s == [c, c] + s[2..];
      } else {
        UnescapeRoundTrip(s[1..], c);
        var u := Unescape(s[1..], c);
        assert Unescape(s, c) == [s[0]] + u;
        assert ([s[0]] + u)[1..] == u;
        assert s == [s[0]] + s[1..];
      }
    }
  }

  /**
   * `s` enclosed in `open` and `close`, each `close` inside written twice:
   * the text between the delimiters is doubled and collapses back to `s`.
   */
  function Delimit(s: string, open: char, close: char): (r: string)
    ensures |r| >= 2 && r[0] == open && r[|r| - 1] == close
    ensures Doubled(r[1..|r| - 1], close) && Unescape(r[1..|r| - 1], close) == s
  {
    var r := [open] + Escape(s, close) + [close];
    assert r[1..|r| - 1] == Escape(s, close);
    EscapeRoundTrip(s, close);
    r
  }

  /** `format!("'{}'", s.replace('\'', "''"))`: a SQL character string literal. */
  function QuoteLiteral(s: string): string {
    Delimit(s, '\'', '\'')
  }

  /** `format!("[{}]", t.replace(']', "]]"))`: a T-SQL delimited identifier. */
  function BracketIdentifier(t: string): string {
    Delimit(t, '[', ']')
  }

  // ---------------------------------------------------------------------
  // Reading literals back
  // ---------------------------------------------------------------------

  /**
   * Reads the rest of a literal whose opening `'` has been consumed: the
   * literal's text and what follows its closing `'`, or None when the
   * literal is not closed.
   */
  function ReadLiteral(s: string): (r: Option<(string, string)>)
    ensures r.Some? ==> |r.value.1| < |s|
    decreases |s|
  {
    if s == [] then None
    else if s[0] == '\'' then
      if |s| >= 2 && s[1] == '\'' then
        match ReadLiteral(s[2..])
        case None => None
        case Some((x, rest)) => Some((['\''] + x, rest))
      else Some(([], s[1..]))
    else
      match ReadLiteral(s[1..])
      case None => None
      case Some((x, rest)) => Some(([s[0]] + x, rest))
  }

  /** A literal is read back whole, and reading stops right after its closing quote. */
  lemma {:induction false} ReadQuoted(x: string, rest: string)
    requires rest == [] || rest[0] != '\''
    ensures ReadLiteral(Escape(x, '\'') + "'" + rest) == Some((x, rest))
    decreases |x|
  {
    var s := Escape(x, '\'') + "'" + rest;
    if x == [] {
      assert s == "'" + rest;
      assert s[1..] == rest;
    } else if x[0] == '\'' {
      ReadQuoted(x[1..], rest);
      assert s == "''" + (Escape(x[1..], '\'') + "'" + rest);
      assert s[2..] == Escape(x[1..], '\'') + "'" + rest;
      assert ['\''] + x[1..] == x;
    } else {
      ReadQuoted(x[1..], rest);
      assert s == [x[0]] + (Escape(x[1..], '\'') + "'" + rest);
      assert s[1..] == Escape(x[1..], '\'') + "'" + rest;
      assert [x[0]] + x[1..] == x;
    }
  }

  /** The quoted literals of `tags`, joined by ", ". */
  function QuotedList(tags: seq<string>): string {
    Join(seq(|tags|, i requires 0 <= i < |tags| => QuoteLiteral(tags[i])), ", ")
  }

  /** Reads a non-empty ", "-separated list of literals back into its texts. */
  function ParseQuotedList(s: string): Option<seq<string>>
    decreases |s|
  {
    if s == [] || s[0] != '\'' then None
    else
      match ReadLiteral(s[1..])
      case None => None
      case Some((x, rest)) =>
        if rest == [] then Some([x])
        else if |rest| >= 2 && rest[..2] == ", " then
          match ParseQuotedList(rest[2..])
          case None => None
          case Some(xs) => Some([x] + xs)
        else None
  }

  /** A list of one tag is its literal. */
  lemma QuotedListSingle(t: string)
    ensures QuotedList([t]) == QuoteLiteral(t)
  {
    assert seq(1, i requires 0 <= i < 1 => QuoteLiteral([t][i])) == [QuoteLiteral(t)];
  }

  /** A longer list is the first literal, ", " and the list of the rest. */
  lemma QuotedListCons(tags: seq<string>)
    requires |tags| >= 2
    ensures QuotedList(tags) == QuoteLiteral(tags[0]) + ", " + QuotedList(tags[1..])
  {
    var q := seq(|tags|, i requires 0 <= i < |tags| => QuoteLiteral(tags[i]));
    assert q[1..] == seq(|tags[1..]|, i requires 0 <= i < |tags[1..]| => QuoteLiteral(tags[1..][i]));
  }

  /** One literal alone parses to its text. */
  lemma ParseSingle(x: string)
    ensures ParseQuotedList(QuoteLiteral(x)) == Some([x])
  {
    var s := QuoteLiteral(x);
    assert s == "'" + Escape(x, '\'') + "'";
    assert s[1..] == Escape(x, '\'') + "'" + "";
    ReadQuoted(x, "");
  }

  /** A literal followed by ", " parses to its text in front of what the rest parses to. */
  lemma ParseCons(x: string, rest: string)
    ensures ParseQuotedList(QuoteLiteral(x) + ", " + rest)
      == match ParseQuotedList(rest) case None => None case Some(xs) => Some([x] + xs)
  {
    var s := QuoteLiteral(x) + ", " + rest;
    assert s == "'" + Escape(x, '\'') + "'" + (", " + rest);
    assert s[1..] == Escape(x, '\'') + "'" + (", " + rest);
    ReadQuoted(x, ", " + rest);
    assert (", " + rest)[2..] == rest;
  }

  /** The list of literals names exactly the tags, in their order, whatever quotes they hold. */
  lemma {:induction false} QuotedListRoundTrip(tags: seq<string>)
    requires tags != []
    ensures ParseQuotedList(QuotedList(tags)) == Some(tags)
    decreases |tags|
  {
    if |tags| == 1 {
      QuotedListSingle(tags[0]);
      ParseSingle(tags[0]);
      assert tags == [tags[0]];
    } else {
      var rest := tags[1..];
      var l := QuotedList(rest);
      QuotedListRoundTrip(rest);
      QuotedListCons(tags);
      ParseCons(tags[0], l);
      assert ParseQuotedList(QuoteLiteral(tags[0]) + ", " + l) == Some([tags[0]] + rest);
      assert [tags[0]] + rest == tags;
    }
  }

  // ---------------------------------------------------------------------
  // The tag filter
  // ---------------------------------------------------------------------

  /** The text before the list of a tag filter. */
  const FilterHead: string := "AND " + TagColumn + " IN ("

  /**
   * `build_tag_filter`: empty without tags; otherwise
   * `AND TagName IN (` followed by the quoted tags and `)`.
   */
  function BuildTagFilter(tags: Option<seq<string>>): (r: string)
    ensures r == [] <==> tags.None? || tags.value == []
    ensures tags.Some? ==> forall i :: 0 <= i < |tags.value| ==> Contains(r, QuoteLiteral(tags.value[i]))
  {
    match tags
    case Some(t) =>
      if t == [] then ""
      else
        var list := QuotedList(t);
        var r := FilterHead + list + ")";
        ContainsMiddle(FilterHead, list, ")");
        forall i | 0 <= i < |t| ensures Contains(r, QuoteLiteral(t[i])) {
          var q := seq(|t|, j requires 0 <= j < |t| => QuoteLiteral(t[j]));
          assert q[i] == QuoteLiteral(t[i]);
          ContainsTransitive(r, list, QuoteLiteral(t[i]));
        }
        r
    case None => ""
  }

  /**
   * A non-empty filter reads back into exactly its tags: after the head
   * and before the closing parenthesis stands a list of literals that
   * parses to the tag list.
   */
  lemma TagFilterRoundTrip(tags: seq<string>)
    requires tags != []
    ensures var r := BuildTagFilter(Some(tags));
      && IsPrefix(FilterHead, r) && |r| > |FilterHead| && r[|r| - 1] == ')'
      && ParseQuotedList(r[|FilterHead|..|r| - 1]) == Some(tags)
  {
    var list := QuotedList(tags);
    var r := FilterHead + list + ")";
    assert r[|FilterHead|..|r| - 1] == list;
    assert r[..|FilterHead|] == FilterHead;
    QuotedListRoundTrip(tags);
  }

  /** A filter over some tags is the head, the list of their literals and `)`. */
  lemma TagFilterShape(tags: seq<string>)
    requires tags != []
    ensures BuildTagFilter(Some(tags)) == FilterHead + QuotedList(tags) + ")"
  {
  }
}
