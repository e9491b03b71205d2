/** The database connections the pages receive from the connections query,
    reduced to what the pages read: the id and the tables the last health
    check reported (absent until one has run). */
module Connections {
  import opened Seqs

  datatype TableInfo = TableInfo(name: string, columnCount: int)

  datatype Connection = Connection(connectionId: int, name: string, isConnected: Option<bool>, tableInfo: Option<seq<TableInfo>>)

  /** The position of the first connection with that id. */
  function FirstIndexOf(cs: seq<Connection>, id: int): (r: Option<nat>)
    ensures r.None? <==> forall c :: c in cs ==> c.connectionId != id
    ensures r.Some? ==> r.value < |cs| && cs[r.value].connectionId == id &&
                          forall j :: 0 <= j < r.value ==> cs[j].connectionId != id
  {
    if cs == [] then None
    else if cs[0].connectionId == id then Some(0)
    else
      match FirstIndexOf(cs[1..], id)
      case None => None
      case Some(i) => Some(i + 1)
  }

  /** `connections.find((conn) => conn.connectionId === id)`: the first
      connection with that id, or nothing when none has it. */
  function FindConnection(cs: seq<Connection>, id: int): (r: Option<Connection>)
    ensures r.None? <==> forall c :: c in cs ==> c.connectionId != id
    ensures r.Some? ==> r.value in cs && r.value.connectionId == id
    ensures r.Some? ==> FirstIndexOf(cs, id).Some? && r.value == cs[FirstIndexOf(cs, id).value]
  {
    match FirstIndexOf(cs, id)
    case None => None
    case Some(i) => Some(cs[i])
  }

  /** The names of a list of tables, in order: `tables.map((t) => t.name)`. */
  function TableNames(tables: seq<TableInfo>): (r: seq<string>)
    ensures |r| == |tables|
    ensures forall i :: 0 <= i < |tables| ==> r[i] == tables[i].name
  {
    seq(|tables|, i requires 0 <= i < |tables| => tables[i].name)
  }
}
