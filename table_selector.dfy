/** The table picker of the type generator: a search box that narrows the
    listed tables by a case-insensitive substring of their names, the
    select-all button with its label, and the message for an empty list. */
module TableSelector {
  import opened Seqs
  import opened Text
  import opened Connections
  import opened GeneratorPage

  /** `t.name.toLowerCase().includes(query.toLowerCase())`. */
  predicate NameMatches(t: TableInfo, query: string)
  {
    Contains(ToLower(t.name), ToLower(query))
  }

  /** filteredTables: a blank query lists every table; any other query keeps,
      in order, the tables whose name contains it, the query itself not
      being trimmed. */
  function FilteredTables(tables: seq<TableInfo>, query: string): (r: seq<TableInfo>)
    ensures IsBlank(query) ==> r == tables
    ensures !IsBlank(query) ==> forall t :: t in r <==> t in tables && NameMatches(t, query)
    ensures IsSubsequence(r, tables)
  {
    TrimEmptyIffBlank(query);
    if |Trim(query)| == 0 then
      FilterKeepsAll(tables, (t: TableInfo) => true);
      FilterIsSubsequence(tables, (t: TableInfo) => true);
      tables
    else
      FilterIsSubsequence(tables, (t: TableInfo) => NameMatches(t, query));
      Filter(tables, (t: TableInfo) => NameMatches(t, query))
  }

  /** Lower-casing keeps exactly the whitespace characters. */
  lemma BlankIgnoresCase(s: string)
    ensures IsBlank(ToLower(s)) <==> IsBlank(s)
  {
    assert forall i :: 0 <= i < |s| ==> (IsWhitespace(ToLower(s)[i]) <==> IsWhitespace(s[i]));
  }

  /** The letter case of the query does not change the list. */
  lemma QueryCaseIgnored(tables: seq<TableInfo>, query: string)
    ensures FilteredTables(tables, ToLower(query)) == FilteredTables(tables, query)
  {
    BlankIgnoresCase(query);
    ToLowerIdempotent(query);
    TrimEmptyIffBlank(query);
    TrimEmptyIffBlank(ToLower(query));
    if !IsBlank(query) {
      FilterCongruent(tables, (t: TableInfo) => NameMatches(t, ToLower(query)), (t: TableInfo) => NameMatches(t, query));
    }
  }

  /** Whatever a name contains, it contains the first character of. */
  lemma ContainsFirstChar(haystack: string, needle: string)
    requires needle != [] && Contains(haystack, needle)
    ensures needle[0] in haystack
  {
    var i :| 0 <= i <= |haystack| && needle <= haystack[i..];
    assert haystack[i] == needle[0];
  }

  /** The query is not trimmed: "us" finds the table "users", " us" with a
      leading space hides it. */
  lemma UntrimmedQuery()
    ensures FilteredTables([TableInfo("users", 4)], "us") == [TableInfo("users", 4)]
    ensures FilteredTables([TableInfo("users", 4)], " us") == []
  {
    QueryFinds();
    QueryWithSpaceHides();
  }

  lemma QueryFinds()
    ensures NameMatches(TableInfo("users", 4), "us") && !IsBlank("us")
  {
    assert ToLower("users") == "users";
    assert ToLower("us") == "us";
    assert "us" <= "users"[0..];
    assert !IsWhitespace("us"[0]);
  }

  lemma QueryWithSpaceHides()
    ensures !NameMatches(TableInfo("users", 4), " us") && !IsBlank(" us")
  {
    assert !IsWhitespace(" us"[1]);
    assert ToLower("users") == "users";
    assert ToLower(" us") == " us";
    if Contains("users", " us") {
      ContainsFirstChar("users", " us");
      assert false;
    }
  }

  /** The select-all button: absent without tables; "Deselect All" exactly
      when the selected count equals the table count. */
  function SelectButtonLabel(selectedCount: nat, tableCount: nat): (r: Option<string>)
    ensures r.None? <==> tableCount == 0
    ensures r == Some("Deselect All") <==> tableCount > 0 && selectedCount == tableCount
    ensures r == Some("Select All") <==> tableCount > 0 && selectedCount != tableCount
  {
    if tableCount > 0 then
      Some(if selectedCount == tableCount then "Deselect All" else "Select All")
    else None
  }

  /** The button says what pressing it does: "Deselect All" clears the
      selection, "Select All" selects every table. */
  lemma LabelAgreesWithSelectAll(selected: seq<string>, tables: seq<TableInfo>)
    ensures SelectButtonLabel(|selected|, |tables|) == Some("Deselect All") ==> SelectAll(selected, tables) == []
    ensures SelectButtonLabel(|selected|, |tables|) == Some("Select All") ==>
              SelectAll(selected, tables) == TableNames(tables) && |SelectAll(selected, tables)| > 0
  {
  }

  /** The text under an empty list; none while some table is listed. A
      query that is not empty, blank ones included, names itself. */
  function EmptyMessage(filtered: seq<TableInfo>, query: string): (r: Option<string>)
    ensures r.None? <==> |filtered| > 0
    ensures |filtered| == 0 && query != "" ==> r == Some("No tables match \"" + query + "\"")
    ensures |filtered| == 0 && query == "" ==> r == Some("No tables found in this database")
  {
    if |filtered| > 0 then None
    else if query != "" then Some("No tables match \"" + query + "\"")
    else Some("No tables found in this database")
  }

  /** A message shows exactly when the database has no tables or, for a
      query that is not blank, when no table name contains it; a blank
      query never hides a table. */
  lemma EmptyMessageShown(tables: seq<TableInfo>, query: string)
    ensures IsBlank(query) ==> (EmptyMessage(FilteredTables(tables, query), query).Some? <==> tables == [])
    ensures !IsBlank(query) ==>
              (EmptyMessage(FilteredTables(tables, query), query).Some? <==> forall t :: t in tables ==> !NameMatches(t, query))
  {
    var r := FilteredTables(tables, query);
    if |r| > 0 {
      assert r[0] in r;
    }
  }
}
