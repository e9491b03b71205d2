/** The mapper generator page: the CRUD operation flags with the `allCrud`
    switch that drives the other four, the enabling rule of the generate
    button, the connection switch, and the PascalCase file name. */
module MapperPage {
  import opened Seqs
  import opened Text
  import opened Connections

  datatype MapperOperation = AllCrud | Select | Insert | Update | Delete

  /** MapperAdvancedOptions: every flag is optional, and the whole object
      is undefined until the first toggle. */
  type MapperOptions = Option<map<MapperOperation, bool>>

  /** `Boolean(options?.[op])`: an absent flag reads as false. */
  predicate IsOperationSelected(opts: MapperOptions, op: MapperOperation)
  {
    opts.Some? && op in opts.value && opts.value[op]
  }

  /** handleOperationToggle's state update. */
  function Toggled(prev: MapperOptions, op: MapperOperation): (r: MapperOptions)
    ensures r.Some?
  {
    if op == AllCrud then
      var v := !IsOperationSelected(prev, AllCrud);
      Some(map[AllCrud := v, Select := v, Insert := v, Update := v, Delete := v])
    else
      Some(prev.GetOr(map[])[op := !IsOperationSelected(prev, op)][AllCrud := false])
  }

  /** hasAnyOperationEnabled: false with no options, else the OR of the
      five flags. */
  predicate HasAnyOperationEnabled(opts: MapperOptions)
  {
    opts.Some? &&
    (IsOperationSelected(opts, AllCrud) || IsOperationSelected(opts, Select) || IsOperationSelected(opts, Insert)
     || IsOperationSelected(opts, Update) || IsOperationSelected(opts, Delete))
  }

  /** Some operation is enabled exactly when some operation is selected. */
  lemma AnyEnabledIffSomeSelected(opts: MapperOptions)
    ensures HasAnyOperationEnabled(opts) <==> exists op :: IsOperationSelected(opts, op)
  {
    if exists op :: IsOperationSelected(opts, op) {
      var op :| IsOperationSelected(opts, op);
      match op
      case AllCrud =>
      case Select =>
      case Insert =>
      case Update =>
      case Delete =>
    }
  }

  /** Toggling `allCrud` sets all five flags to the negation of its
      previous value (an absent flag counting as false). */
  lemma ToggleAllCrud(prev: MapperOptions, op: MapperOperation)
    ensures IsOperationSelected(Toggled(prev, AllCrud), op) == !IsOperationSelected(prev, AllCrud)
    ensures HasAnyOperationEnabled(Toggled(prev, AllCrud)) == !IsOperationSelected(prev, AllCrud)
  {
  }

  /** Toggling one operation flips only that flag and clears `allCrud`;
      the other flags keep their values. */
  lemma ToggleSingle(opts: MapperOptions, op: MapperOperation, other: MapperOperation)
    requires op != AllCrud
    ensures IsOperationSelected(Toggled(opts, op), op) == !IsOperationSelected(opts, op)
    ensures !IsOperationSelected(Toggled(opts, op), AllCrud)
    ensures other != op && other != AllCrud ==>
              IsOperationSelected(Toggled(opts, op), other) == IsOperationSelected(opts, other)
  {
  }

  /** Toggling the same operation twice restores its flag and the other
      flags, but `allCrud` stays cleared. */
  lemma ToggleTwice(opts: MapperOptions, op: MapperOperation, other: MapperOperation)
    requires op != AllCrud
    ensures IsOperationSelected(Toggled(Toggled(opts, op), op), op) == IsOperationSelected(opts, op)
    ensures other != AllCrud ==>
              IsOperationSelected(Toggled(Toggled(opts, op), op), other) == IsOperationSelected(opts, other)
    ensures !IsOperationSelected(Toggled(Toggled(opts, op), op), AllCrud)
  {
  }

  /** Toggling `allCrud` twice restores `allCrud` and leaves the other four
      flags equal to it. */
  lemma ToggleAllCrudTwice(opts: MapperOptions, op: MapperOperation)
    ensures IsOperationSelected(Toggled(Toggled(opts, AllCrud), AllCrud), op) == IsOperationSelected(opts, AllCrud)
  {
  }

  /** The disabled condition of the generate button, negated. */
  predicate CanGenerate(selectedConnection: int, selectedTable: string, pending: bool, opts: MapperOptions)
  {
    selectedConnection != 0 && selectedTable != "" && !pending && HasAnyOperationEnabled(opts)
  }

  // ---------------------------------------------------------------------
  // toPascalCase

  predicate IsSeparator(c: char)
  {
    c == '_' || c == '-'
  }

  function SeparatorCount(s: string): (n: nat)
    ensures n <= |s|
  {
    if s == [] then 0 else (if IsSeparator(s[0]) then 1 else 0) + SeparatorCount(s[1..])
  }

  predicate NoSeparator(w: string)
  {
    forall i :: 0 <= i < |w| ==> !IsSeparator(w[i])
  }

  /** `s.split(/[_-]/)`: the maximal runs between separators, empty runs
      included, so there is always one more piece than separators. */
  function Split(s: string): (r: seq<string>)
    ensures |r| == SeparatorCount(s) + 1
    ensures forall k :: 0 <= k < |r| ==> NoSeparator(r[k])
  {
    if s == [] then [""]
    else
      var rest := Split(s[1..]);
      if IsSeparator(s[0]) then [""] + rest
      else
        assert NoSeparator([s[0]] + rest[0]) by {
          assert forall i :: 1 <= i < |rest[0]| + 1 ==> ([s[0]] + rest[0])[i] == rest[0][i - 1];
        }
        [[s[0]] + rest[0]] + rest[1..]
  }

  /** The separator characters of `s`, in order. */
  function Separators(s: string): (r: seq<char>)
    ensures |r| == SeparatorCount(s)
  {
    if s == [] then [] else (if IsSeparator(s[0]) then [s[0]] else []) + Separators(s[1..])
  }

  /** The pieces with the separators put back between them. */
  function Rejoin(pieces: seq<string>, seps: seq<char>): string
    requires |pieces| == |seps| + 1
    decreases |seps|
  {
    if seps == [] then pieces[0] else pieces[0] + [seps[0]] + Rejoin(pieces[1..], seps[1..])
  }

  lemma RejoinPrepend(x: string, pieces: seq<string>, seps: seq<char>)
    requires |pieces| == |seps| + 1
    ensures Rejoin([x + pieces[0]] + pieces[1..], seps) == x + Rejoin(pieces, seps)
  {
    var p' := [x + pieces[0]] + pieces[1..];
    assert p'[1..] == pieces[1..];
  }

  /** The pieces of the split, with the separators put back between them,
      are the original name: the split loses nothing but where it cut. */
  lemma {:induction false} SplitRejoins(s: string)
    ensures Rejoin(Split(s), Separators(s)) == s
  {
    if s != [] {
      SplitRejoins(s[1..]);
      var rest := Split(s[1..]);
      if IsSeparator(s[0]) {
        assert ([""] + rest)[1..] == rest;
        assert Separators(s) == [s[0]] + Separators(s[1..]);
        assert s == [s[0]] + s[1..];
      } else {
        assert Separators(s) == Separators(s[1..]);
        RejoinPrepend([s[0]], rest, Separators(s[1..]));
        assert s == [s[0]] + s[1..];
      }
    }
  }

  /** `word.charAt(0).toUpperCase() + word.slice(1).toLowerCase()`. */
  function Capitalize(w: string): (r: string)
    ensures |r| == |w|
  {
    if w == [] then "" else [ToUpperChar(w[0])] + ToLower(w[1..])
  }

  /** `.join('')` of the capitalised pieces. */
  function JoinCapitalized(ws: seq<string>): string
  {
    if ws == [] then "" else Capitalize(ws[0]) + JoinCapitalized(ws[1..])
  }

  function ToPascalCase(s: string): string
  {
    JoinCapitalized(Split(s))
  }

  function TotalLength(ws: seq<string>): nat
  {
    if ws == [] then 0 else |ws[0]| + TotalLength(ws[1..])
  }

  lemma {:induction false} SplitLength(s: string)
    ensures TotalLength(Split(s)) + SeparatorCount(s) == |s|
  {
    if s != [] {
      SplitLength(s[1..]);
      var rest := Split(s[1..]);
      if !IsSeparator(s[0]) {
        assert Split(s)[1..] == rest[1..];
        assert rest == [rest[0]] + rest[1..];
        assert TotalLength(rest) == |rest[0]| + TotalLength(rest[1..]);
      }
    }
  }

  lemma {:induction false} JoinLength(ws: seq<string>)
    ensures |JoinCapitalized(ws)| == TotalLength(ws)
  {
    if ws != [] {
      JoinLength(ws[1..]);
    }
  }

  lemma CapitalizeNoSeparator(w: string)
    requires NoSeparator(w)
    ensures NoSeparator(Capitalize(w))
  {
    if w != [] {
      var r := Capitalize(w);
      forall i | 0 <= i < |r|
        ensures !IsSeparator(r[i])
      {
        if i > 0 {
          assert r[i] == ToLowerChar(w[i]);
        }
      }
    }
  }

  lemma {:induction false} JoinHasNoSeparator(ws: seq<string>)
    requires forall k :: 0 <= k < |ws| ==> NoSeparator(ws[k])
    ensures NoSeparator(JoinCapitalized(ws))
  {
    if ws != [] {
      JoinHasNoSeparator(ws[1..]);
      CapitalizeNoSeparator(ws[0]);
      var a, b := Capitalize(ws[0]), JoinCapitalized(ws[1..]);
      assert forall i :: |a| <= i < |a| + |b| ==> (a + b)[i] == b[i - |a|];
    }
  }

  /** The PascalCase name has no separators left, and for this ASCII case
      mapping it is exactly the separators shorter than the input. */
  lemma PascalCaseShape(s: string)
    ensures NoSeparator(ToPascalCase(s))
    ensures |ToPascalCase(s)| == |s| - SeparatorCount(s)
  {
    JoinHasNoSeparator(Split(s));
    JoinLength(Split(s));
    SplitLength(s);
  }

  /** `Split` one character at a time. */
  lemma SplitCons(c: char, rest: string)
    ensures IsSeparator(c) ==> Split([c] + rest) == [""] + Split(rest)
    ensures !IsSeparator(c) ==> Split([c] + rest) == [[c] + Split(rest)[0]] + Split(rest)[1..]
  {
    assert ([c] + rest)[1..] == rest;
  }

  /** Each piece is capitalised, the rest of it lower-cased, and the
      separator vanishes: "ab_CD" becomes "AbCd". */
  lemma PascalCaseExample()
    ensures ToPascalCase("ab_CD") == "AbCd"
  {
    assert "D" == ['D'] + "";
    SplitCons('D', "");
    assert Split("D") == ["D"];
    assert "CD" == ['C'] + "D";
    SplitCons('C', "D");
    assert Split("CD") == ["CD"];
    assert "_CD" == ['_'] + "CD";
    SplitCons('_', "CD");
    assert Split("_CD") == ["", "CD"];
    assert "b_CD" == ['b'] + "_CD";
    SplitCons('b', "_CD");
    assert ["", "CD"][1..] == ["CD"] && ['b'] + "" == "b";
    assert Split("b_CD") == ["b", "CD"];
    assert "ab_CD" == ['a'] + "b_CD";
    SplitCons('a', "b_CD");
    assert ["b", "CD"][1..] == ["CD"] && ['a'] + "b" == "ab";
    assert Split("ab_CD") == ["ab", "CD"];
    assert Capitalize("ab") == "Ab" by {
      assert ToLower("b") == "b";
    }
    assert Capitalize("CD") == "Cd" by {
      assert ToLower("D") == "d";
    }
    assert JoinCapitalized(["ab", "CD"]) == Capitalize("ab") + JoinCapitalized(["CD"]);
  }

  // ---------------------------------------------------------------------
  // The page state

  class MapperPageState {
    var selectedConnection: int
    var selectedTable: string
    var advancedOptions: MapperOptions
    var allTables: seq<TableInfo>
    /** The connection id of the request payload, once one was chosen. */
    var payloadConnection: Option<int>

    constructor()
      ensures selectedConnection == 0 && selectedTable == "" && advancedOptions.None?
      ensures allTables == [] && payloadConnection.None?
    {
      selectedConnection := 0;
      selectedTable := "";
      advancedOptions := None;
      allTables := [];
      payloadConnection := None;
    }

    predicate GenerateEnabled(pending: bool)
      reads this
    {
      CanGenerate(selectedConnection, selectedTable, pending, advancedOptions)
    }

    method HandleOperationToggle(op: MapperOperation)
      modifies this
      ensures advancedOptions == Toggled(old(advancedOptions), op)
      ensures selectedConnection == old(selectedConnection) && selectedTable == old(selectedTable)
      ensures allTables == old(allTables) && payloadConnection == old(payloadConnection)
    {
      advancedOptions := Toggled(advancedOptions, op);
    }

    method SelectTable(name: string)
      modifies this
      ensures selectedTable == name
      ensures selectedConnection == old(selectedConnection) && advancedOptions == old(advancedOptions)
      ensures allTables == old(allTables) && payloadConnection == old(payloadConnection)
    {
      selectedTable := name;
    }

    /** handleDatabaseConnToggle: the tables of the chosen connection (none
        when it is unknown or has no tables yet), and the table choice is
        cleared, which disables generation until a table is chosen. */
    method HandleDatabaseConnToggle(connections: seq<Connection>, id: int)
      modifies this
      ensures selectedConnection == id && selectedTable == ""
      ensures payloadConnection == Some(id)
      ensures FindConnection(connections, id).None? ==> allTables == []
      ensures FindConnection(connections, id).Some? ==> allTables == FindConnection(connections, id).value.tableInfo.GetOr([])
      ensures advancedOptions == old(advancedOptions)
      ensures forall pending :: !GenerateEnabled(pending)
    {
      var connection := FindConnection(connections, id);
      var tables := if connection.Some? then connection.value.tableInfo.GetOr([]) else [];
      selectedConnection := id;
      allTables := tables;
      selectedTable := "";
      payloadConnection := Some(id);
    }
  }
}
