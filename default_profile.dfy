/**
 * The default schema profile: the tag table `TagDataBase` and a history
 * table with the columns DateTime, TagName, TagVal and TagQuality. It
 * writes the SQL text of the two queries and maps a result row to a
 * history record.
 */
module DefaultSchema {
  import opened Wrappers
  import opened Strings
  import opened Models
  import opened Errors
  import opened SchemaProfile

  /** `DefaultProfile`, a profile without state. */
  datatype DefaultProfile = DefaultProfile

  /** `name()`. */
  function Name(p: DefaultProfile): string {
    "default"
  }

  /** The line break and indentation between the clauses of the SQL templates. */
  const Indent: string := "\n               "

  /**
   * `tag_search_sql(limit)`: at most `limit` distinct tag names of the
   * tag table matching the LIKE pattern bound to @P1, in name order.
   */
  function TagSearchSql(p: DefaultProfile, limit: nat): (r: string)
    ensures Contains(r, "TOP " + NatToString(limit))
    ensures Contains(r, "[TagDataBase]")
    ensures Contains(r, "TagName LIKE @P1")
    ensures Contains(r, "ORDER BY TagName")
  {
    var parts := ["SELECT DISTINCT ", "TOP " + NatToString(limit), " TagName ", Indent,
                  "FROM ", "[TagDataBase]", " ", Indent,
                  "WHERE ", "TagName LIKE @P1", Indent,
                  "ORDER BY TagName"];
    var r := Join(parts, "");
    assert Contains(r, parts[1]) && Contains(r, parts[5]) && Contains(r, parts[9]) && Contains(r, parts[11]);
    r
  }

  /**
   * `history_query_sql`: the four columns of the table for the time
   * range, with the tag filter spliced in verbatim, ordered by time. The
   * table becomes a bracket-delimited identifier and the two times become
   * string literals, each with its delimiter doubled inside.
   */
  function HistoryQuerySql(p: DefaultProfile, table: string, startTime: string, endTime: string, tagFilter: string): (r: string)
    ensures Contains(r, BracketIdentifier(table) + " WITH (NOLOCK)")
    ensures Contains(r, "DateTime BETWEEN " + QuoteLiteral(startTime) + " AND " + QuoteLiteral(endTime))
    ensures Contains(r, tagFilter)
    ensures Contains(r, "ORDER BY DateTime")
  {
    var parts := ["SELECT DateTime, TagName, TagVal, TagQuality ", Indent,
                  "FROM ", BracketIdentifier(table) + " WITH (NOLOCK)", Indent,
                  "WHERE ", "DateTime BETWEEN " + QuoteLiteral(startTime) + " AND " + QuoteLiteral(endTime), Indent,
                  tagFilter, Indent,
                  "ORDER BY DateTime"];
    var r := Join(parts, "");
    assert Contains(r, parts[3]) && Contains(r, parts[6]) && Contains(r, parts[8]) && Contains(r, parts[10]);
    r
  }

  /**
   * The table name and the two times are read back from their escaped
   * forms, so no value can close its delimiter early.
   */
  lemma HistorySqlEscapes(table: string, startTime: string, endTime: string)
    ensures var t := BracketIdentifier(table);
      Doubled(t[1..|t| - 1], ']') && Unescape(t[1..|t| - 1], ']') == table
    ensures ReadLiteral(QuoteLiteral(startTime)[1..] + " AND ") == Some((startTime, " AND "))
    ensures ReadLiteral(QuoteLiteral(endTime)[1..]) == Some((endTime, ""))
  {
    var s := QuoteLiteral(startTime);
    assert s[1..] + " AND " == Escape(startTime, '\'') + "'" + " AND ";
    ReadQuoted(startTime, " AND ");
    var e := QuoteLiteral(endTime);
    assert e[1..] == Escape(endTime, '\'') + "'" + "";
    ReadQuoted(endTime, "");
  }

  /** A result row: each column may be NULL, which reads as absent. */
  datatype Row = Row(dateTime: Option<int>, tagName: Option<string>, tagVal: Option<real>, tagQuality: Option<string>)

  /** No white space at either end: the form `trim` leaves. */
  predicate Trimmed(s: string) {
    s == [] || (!IsWhitespace(s[0]) && !IsWhitespace(s[|s| - 1]))
  }

  /**
   * `map_history_row`: a missing time becomes "", a missing name or
   * quality "", a missing value 0.0; the time is written with `format`,
   * the name and the quality are trimmed.
   */
  function MapHistoryRow(p: DefaultProfile, row: Row, format: int -> string): (r: Result<HistoryRecord>)
    ensures r.Ok?
    ensures r.value.dateTime == (match row.dateTime case Some(t) => format(t) case None => "")
    ensures r.value.tagVal == row.tagVal.GetOr(0.0)
    ensures Trimmed(r.value.tagName) && Trimmed(r.value.tagQuality)
    ensures row.tagName.None? ==> r.value.tagName == ""
    ensures row.tagQuality.None? ==> r.value.tagQuality == ""
    ensures row.tagName.Some? && Trimmed(row.tagName.value) ==> r.value.tagName == row.tagName.value
    ensures row.tagQuality.Some? && Trimmed(row.tagQuality.value) ==> r.value.tagQuality == row.tagQuality.value
  {
    var dateTime := match row.dateTime case Some(t) => format(t) case None => "";
    Ok(HistoryRecord(dateTime, TrimmedText(row.tagName), row.tagVal.GetOr(0.0), TrimmedText(row.tagQuality)))
  }

  /** `get::<&str>(..).unwrap_or("").trim()`: a text column, trimmed, or "" when absent. */
  function TrimmedText(column: Option<string>): (r: string)
    ensures Trimmed(r)
    ensures column.None? ==> r == ""
    ensures column.Some? && Trimmed(column.value) ==> r == column.value
  {
    match column
    case None => ""
    case Some(s) => Trim(s)
  }
}
