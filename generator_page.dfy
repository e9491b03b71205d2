/** The type generator page: the table selection (toggle one, select or
    clear all), the connection switch, the enabling rule of the generate
    button and the `tableNames` field of the request it sends. */
module GeneratorPage {
  import opened Seqs
  import opened Connections

  /** handleTableToggle's update: remove the name if it is selected,
      otherwise append it. */
  function ToggledTable(prev: seq<string>, name: string): (r: seq<string>)
    ensures name in r <==> name !in prev
    ensures forall x :: x != name ==> (x in r <==> x in prev)
    ensures name !in prev ==> r == prev + [name]
    ensures name in prev ==> IsSubsequence(r, prev)
    ensures name in prev ==> forall x :: x != name ==> multiset(r)[x] == multiset(prev)[x]
  {
    if name in prev then
      FilterIsSubsequence(prev, (x: string) => x != name);
      FilterMultiplicity(prev, (x: string) => x != name);
      Filter(prev, (x: string) => x != name)
    else prev + [name]
  }

  lemma {:induction false} FilterDropsLast(s: seq<string>, name: string)
    requires name !in s
    ensures Filter(s + [name], (x: string) => x != name) == s
  {
    if s != [] {
      FilterDropsLast(s[1..], name);
      assert (s + [name])[1..] == s[1..] + [name];
    } else {
      assert Filter([name], (x: string) => x != name) == Filter([], (x: string) => x != name);
    }
  }

  /** Toggling an unselected table twice restores the selection. */
  lemma ToggleTwiceRestores(prev: seq<string>, name: string)
    requires name !in prev
    ensures ToggledTable(ToggledTable(prev, name), name) == prev
  {
    FilterDropsLast(prev, name);
  }

  /** Toggling keeps the selection free of duplicates. */
  lemma ToggleKeepsNoDuplicates(prev: seq<string>, name: string)
    requires NoDuplicates(prev)
    ensures NoDuplicates(ToggledTable(prev, name))
  {
    if name in prev {
      FilterNoDuplicates(prev, (x: string) => x != name);
    } else {
      var r := prev + [name];
      forall i, j | 0 <= i < j < |r|
        ensures r[i] != r[j]
      {
        if j == |prev| {
          assert r[i] == prev[i];
        }
      }
    }
  }

  /** handleSelectAll's update: clear when the counts agree, else every
      table name in table order. */
  function SelectAll(selected: seq<string>, tables: seq<TableInfo>): (r: seq<string>)
    ensures |selected| == |tables| ==> r == []
    ensures |selected| != |tables| ==> |r| == |tables| && forall i :: 0 <= i < |r| ==> r[i] == tables[i].name
  {
    if |selected| == |tables| then [] else TableNames(tables)
  }

  /** Only the counts are compared: a selection of the right size clears
      even when some table is not in it. */
  lemma SelectAllComparesCounts()
    ensures var tables := [TableInfo("users", 3), TableInfo("orders", 5)];
            var selected := ["users", "audit"];
            "orders" !in selected && SelectAll(selected, tables) == []
  {
  }

  /** The negation of the generate button's disabled condition. */
  predicate CanGenerate(selectedConnection: int, selectedTables: seq<string>, pending: bool)
  {
    selectedConnection != 0 && |selectedTables| > 0 && !pending
  }

  /** The `tableNames` field of the request: null when nothing is selected. */
  function RequestTableNames(selectedTables: seq<string>): (r: Option<seq<string>>)
    ensures r.None? <==> selectedTables == []
    ensures r.Some? ==> r.value == selectedTables
  {
    if |selectedTables| > 0 then Some(selectedTables) else None
  }

  /** A request the button can send always names its tables. */
  lemma EnabledRequestNamesTables(selectedConnection: int, selectedTables: seq<string>, pending: bool)
    requires CanGenerate(selectedConnection, selectedTables, pending)
    ensures RequestTableNames(selectedTables) == Some(selectedTables)
  {
  }

  class GeneratorPageState {
    var selectedConnection: int
    var selectedTables: seq<string>
    var allTables: seq<TableInfo>
    var generatedCode: string
    /** The connection id of the request payload, once one was chosen. */
    var payloadConnection: Option<int>

    constructor()
      ensures selectedConnection == 0 && selectedTables == [] && allTables == []
      ensures generatedCode == "" && payloadConnection.None?
    {
      selectedConnection := 0;
      selectedTables := [];
      allTables := [];
      generatedCode := "";
      payloadConnection := None;
    }

    predicate GenerateEnabled(pending: bool)
      reads this
    {
      CanGenerate(selectedConnection, selectedTables, pending)
    }

    method HandleTableToggle(name: string)
      modifies this
      ensures selectedTables == ToggledTable(old(selectedTables), name)
      ensures NoDuplicates(old(selectedTables)) ==> NoDuplicates(selectedTables)
      ensures selectedConnection == old(selectedConnection) && allTables == old(allTables)
      ensures generatedCode == old(generatedCode) && payloadConnection == old(payloadConnection)
    {
      if NoDuplicates(selectedTables) {
        ToggleKeepsNoDuplicates(selectedTables, name);
      }
      selectedTables := ToggledTable(selectedTables, name);
    }

    method HandleSelectAll()
      modifies this
      ensures selectedTables == SelectAll(old(selectedTables), allTables)
      ensures selectedConnection == old(selectedConnection) && allTables == old(allTables)
      ensures generatedCode == old(generatedCode) && payloadConnection == old(payloadConnection)
    {
      selectedTables := SelectAll(selectedTables, allTables);
    }

    /** handleDatabaseConnToggle: an unknown id changes nothing; a known one
        switches the tables, clears the selection and the generated code. */
    method HandleDatabaseConnToggle(connections: seq<Connection>, id: int)
      modifies this
      ensures FindConnection(connections, id).None? ==>
                selectedConnection == old(selectedConnection) && selectedTables == old(selectedTables) &&
                allTables == old(allTables) && generatedCode == old(generatedCode) &&
                payloadConnection == old(payloadConnection)
      ensures FindConnection(connections, id).Some? ==>
                selectedConnection == id && payloadConnection == Some(id) &&
                allTables == FindConnection(connections, id).value.tableInfo.GetOr([]) &&
                selectedTables == [] && generatedCode == ""
      ensures FindConnection(connections, id).Some? ==> forall pending :: !GenerateEnabled(pending)
    {
      var connection := FindConnection(connections, id);
      if connection.None? {
        return;
      }
      allTables := connection.value.tableInfo.GetOr([]);
      selectedConnection := id;
      payloadConnection := Some(id);
      selectedTables := [];
      generatedCode := "";
    }
  }
}
