/**
 * The exporters: SQL text (`CREATE TABLE` blocks, then `ALTER TABLE ... ADD
 * FOREIGN KEY` statements) and the JSON document value.
 *
 * Where the code would throw a `TypeError` (a `columns` that is not an array,
 * a column type that is not a string), the result is `Err`.
 */
module SchemaExport {
  import opened JsValues
  import opened JsStrings
  import opened Graph

  datatype ExportError =
    | ColumnsNotArray(nodeId: string)      // `columns.map` or `columns.find` on a non-array
    | ColumnTypeNotString(nodeId: string)  // `column.type.toUpperCase` on a non-string

  /** `array.join(sep)`. */
  function Join(parts: seq<string>, sep: string): string {
    if parts == [] then ""
    else if |parts| == 1 then parts[0]
    else Join(parts[..|parts| - 1], sep) + sep + parts[|parts| - 1]
  }

  // ---------------------------------------------------------------------------
  // generateSQL as a specification. Each fold is written from the end, so that
  // one more loop iteration is one more unfolding.

  /** `  <name> <TYPE>`, followed by ` PRIMARY KEY` when the column is primary. */
  function ColumnLine(nodeId: string, c: Column): (r: Result<string, ExportError>)
    ensures r.Err? <==> !c.colType.Str?
    ensures r.Err? ==> r.error == ColumnTypeNotString(nodeId)
  {
    match c.colType
    case Str(t) =>
      Ok("  " + ToStr(c.name) + " " + Upper(t) + (if Truthy(c.isPrimary) then " PRIMARY KEY" else ""))
    case _ => Err(ColumnTypeNotString(nodeId))
  }

  /** `columns.map(...)`: one line per column, or the first failure. */
  function ColumnLines(nodeId: string, cs: seq<Column>): (r: Result<seq<string>, ExportError>)
    ensures r.Err? ==> r.error == ColumnTypeNotString(nodeId)
    ensures r.Ok? ==> |r.value| == |cs|
  {
    if cs == [] then Ok([])
    else match ColumnLines(nodeId, cs[..|cs| - 1])
      case Err(e) => Err(e)
      case Ok(init) =>
        match ColumnLine(nodeId, cs[|cs| - 1])
        case Err(e) => Err(e)
        case Ok(line) => Ok(init + [line])
  }

  /** The `CREATE TABLE` block of one node. */
  function CreateBlock(n: Node): (r: Result<string, ExportError>)
    ensures n.data.columns.NotArr? ==> r == Err(ColumnsNotArray(n.id))
    ensures r.Err? ==> r.error.nodeId == n.id
  {
    match n.data.columns
    case NotArr(_) => Err(ColumnsNotArray(n.id))
    case Arr(cs) =>
      match ColumnLines(n.id, cs)
      case Err(e) => Err(e)
      case Ok(lines) => Ok("CREATE TABLE " + ToStr(n.data.title) + " (\n" + Join(lines, ",\n") + "\n);\n\n")
  }

  /** The first pass: every node's block in order, or the first failure. */
  function CreateBlocks(nodes: seq<Node>): (r: Result<string, ExportError>)
    ensures r.Err? ==> exists k :: 0 <= k < |nodes| && nodes[k].id == r.error.nodeId
  {
    if nodes == [] then Ok("")
    else match CreateBlocks(nodes[..|nodes| - 1])
      case Err(e) =>
        assert exists k :: 0 <= k < |nodes| && nodes[k].id == e.nodeId by {
          var k :| 0 <= k < |nodes| - 1 && nodes[..|nodes| - 1][k].id == e.nodeId;
          assert nodes[..|nodes| - 1][k] == nodes[k];
        }
        Err(e)
      case Ok(init) =>
        match CreateBlock(nodes[|nodes| - 1])
        case Err(e) => Err(e)
        case Ok(block) => Ok(init + block)
  }

  /** `columns.find(c => c.isForeignKey)`. */
  function FirstForeignKey(cs: seq<Column>): (r: Option<Column>)
    ensures r.Some? ==> Truthy(r.value.isForeignKey)
    ensures r.Some? ==> exists k :: 0 <= k < |cs| && cs[k] == r.value
                          && forall j :: 0 <= j < k ==> !Truthy(cs[j].isForeignKey)
    ensures r.None? <==> forall k :: 0 <= k < |cs| ==> !Truthy(cs[k].isForeignKey)
  {
    if cs == [] then None
    else if Truthy(cs[0].isForeignKey) then Some(cs[0])
    else
      var r := FirstForeignKey(cs[1..]);
      assert r.Some? ==> exists k :: 0 <= k < |cs| && cs[k] == r.value
                          && forall j :: 0 <= j < k ==> !Truthy(cs[j].isForeignKey) by {
        if r.Some? {
          var k :| 0 <= k < |cs[1..]| && cs[1..][k] == r.value
                   && forall j :: 0 <= j < k ==> !Truthy(cs[1..][j].isForeignKey);
          assert cs[k + 1] == r.value;
          forall j | 0 <= j < k + 1 ensures !Truthy(cs[j].isForeignKey) {
            if j > 0 { assert cs[j] == cs[1..][j - 1]; }
          }
        }
      }
      r
  }

  /** The two lines of one foreign-key constraint. */
  function ForeignKeyText(source: Value, column: Value, target: Value): string {
    "ALTER TABLE " + ToStr(source) + "\n"
    + "ADD FOREIGN KEY (" + ToStr(column) + ") REFERENCES " + ToStr(target) + "(id);\n\n"
  }

  /** The `ALTER TABLE` statement of one edge: empty when an endpoint is
      missing or the source has no foreign-key column. */
  function AlterStatement(nodes: seq<Node>, e: Edge): (r: Result<string, ExportError>)
    ensures FindNode(nodes, e.source).None? || FindNode(nodes, e.target).None? ==> r == Ok("")
    ensures r.Err? ==> r.error == ColumnsNotArray(e.source)
                       && FindNode(nodes, e.source).value.data.columns.NotArr?
    ensures r.Ok? && r.value != "" ==>
              && FindNode(nodes, e.source).Some? && FindNode(nodes, e.target).Some?
              && FindNode(nodes, e.source).value.data.columns.Arr?
              && FirstForeignKey(FindNode(nodes, e.source).value.data.columns.items).Some?
  {
    match (FindNode(nodes, e.source), FindNode(nodes, e.target))
    case (Some(src), Some(tgt)) =>
      (match src.data.columns
       case NotArr(_) => Err(ColumnsNotArray(src.id))
       case Arr(cs) =>
         match FirstForeignKey(cs)
         case None => Ok("")
         case Some(fk) => Ok(ForeignKeyText(src.data.title, fk.name, tgt.data.title)))
    case _ => Ok("")
  }

  /** The second pass: every edge's statement in order, or the first failure. */
  function AlterStatements(nodes: seq<Node>, edges: seq<Edge>): (r: Result<string, ExportError>)
    ensures r.Err? ==> r.error.ColumnsNotArray?
  {
    if edges == [] then Ok("")
    else match AlterStatements(nodes, edges[..|edges| - 1])
      case Err(e) => Err(e)
      case Ok(init) =>
        match AlterStatement(nodes, edges[|edges| - 1])
        case Err(e) => Err(e)
        case Ok(stmt) => Ok(init + stmt)
  }

  /** The text `generateSQL` returns: every `CREATE TABLE` block in node order,
      then every `ALTER TABLE` statement in edge order. */
  function Sql(nodes: seq<Node>, edges: seq<Edge>): (r: Result<string, ExportError>)
    ensures r.Ok? <==> CreateBlocks(nodes).Ok? && AlterStatements(nodes, edges).Ok?
    ensures r.Ok? ==> CreateBlocks(nodes).value <= r.value
    ensures CreateBlocks(nodes).Err? ==> r == CreateBlocks(nodes)
  {
    match CreateBlocks(nodes)
    case Err(e) => Err(e)
    case Ok(creates) =>
      match AlterStatements(nodes, edges)
      case Err(e) => Err(e)
      case Ok(alters) => Ok(creates + alters)
  }

  /** Once a prefix of the nodes has failed, the first pass fails with the
      same error. */
  lemma {:induction false} CreateErrSticks(nodes: seq<Node>, i: nat)
    requires i <= |nodes| && CreateBlocks(nodes[..i]).Err?
    ensures CreateBlocks(nodes) == CreateBlocks(nodes[..i])
  {
    if i < |nodes| {
      assert nodes[..|nodes| - 1][..i] == nodes[..i];
      CreateErrSticks(nodes[..|nodes| - 1], i);
    } else {
      assert nodes[..i] == nodes;
    }
  }

  lemma {:induction false} AlterErrSticks(nodes: seq<Node>, edges: seq<Edge>, j: nat)
    requires j <= |edges| && AlterStatements(nodes, edges[..j]).Err?
    ensures AlterStatements(nodes, edges) == AlterStatements(nodes, edges[..j])
  {
    if j < |edges| {
      assert edges[..|edges| - 1][..j] == edges[..j];
      AlterErrSticks(nodes, edges[..|edges| - 1], j);
    } else {
      assert edges[..j] == edges;
    }
  }

  /** One more iteration of the first pass. */
  lemma CreateStep(nodes: seq<Node>, i: nat, acc: string)
    requires i < |nodes| && CreateBlocks(nodes[..i]) == Ok(acc)
    ensures CreateBlock(nodes[i]).Ok? ==> CreateBlocks(nodes[..i + 1]) == Ok(acc + CreateBlock(nodes[i]).value)
    ensures CreateBlock(nodes[i]).Err? ==> CreateBlocks(nodes) == Err(CreateBlock(nodes[i]).error)
  {
    assert nodes[..i + 1][..i] == nodes[..i];
    if CreateBlock(nodes[i]).Err? {
      CreateErrSticks(nodes, i + 1);
    }
  }

  /** One more iteration of the second pass. */
  lemma AlterStep(nodes: seq<Node>, edges: seq<Edge>, j: nat, acc: string)
    requires j < |edges| && AlterStatements(nodes, edges[..j]) == Ok(acc)
    ensures AlterStatement(nodes, edges[j]).Ok? ==>
              AlterStatements(nodes, edges[..j + 1]) == Ok(acc + AlterStatement(nodes, edges[j]).value)
    ensures AlterStatement(nodes, edges[j]).Err? ==>
              AlterStatements(nodes, edges) == Err(AlterStatement(nodes, edges[j]).error)
  {
    assert edges[..j + 1][..j] == edges[..j];
    if AlterStatement(nodes, edges[j]).Err? {
      AlterErrSticks(nodes, edges, j + 1);
    }
  }

  /** The first `forEach` of `generateSQL`: appends each node's block. */
  method CreateTablesPass(nodes: seq<Node>) returns (r: Result<string, ExportError>)
    ensures r == CreateBlocks(nodes)
  {
    var sql := "";
    var i := 0;
    while i < |nodes|
      invariant 0 <= i <= |nodes|
      invariant CreateBlocks(nodes[..i]) == Ok(sql)
    {
      var block := CreateBlock(nodes[i]);
      CreateStep(nodes, i, sql);
      if block.Err? {
        return Err(block.error);
      }
      sql := sql + block.value;
      i := i + 1;
    }
    assert nodes[..i] == nodes;
    return Ok(sql);
  }

  /** The second `forEach` of `generateSQL`: appends each edge's statement. */
  method ForeignKeysPass(nodes: seq<Node>, edges: seq<Edge>) returns (r: Result<string, ExportError>)
    ensures r == AlterStatements(nodes, edges)
  {
    var sql := "";
    var j := 0;
    while j < |edges|
      invariant 0 <= j <= |edges|
      invariant AlterStatements(nodes, edges[..j]) == Ok(sql)
    {
      var stmt := AlterStatement(nodes, edges[j]);
      AlterStep(nodes, edges, j, sql);
      if stmt.Err? {
        return Err(stmt.error);
      }
      sql := sql + stmt.value;
      j := j + 1;
    }
    assert edges[..j] == edges;
    return Ok(sql);
  }

  /** `generateSQL`: the table blocks, then the foreign-key statements; the
      first `TypeError` ends the export. */
  method GenerateSQL(nodes: seq<Node>, edges: seq<Edge>) returns (r: Result<string, ExportError>)
    ensures r == Sql(nodes, edges)
  {
    var creates := CreateTablesPass(nodes);
    if creates.Err? {
      return Err(creates.error);
    }
    var alters := ForeignKeysPass(nodes, edges);
    if alters.Err? {
      return Err(alters.error);
    }
    return Ok(creates.value + alters.value);
  }

  // ---------------------------------------------------------------------------
  // When generateSQL fails.

  /** Every node has an array of columns, and every column type is a string. */
  predicate Exportable(nodes: seq<Node>) {
    forall k :: 0 <= k < |nodes| ==>
      && nodes[k].data.columns.Arr?
      && forall j :: 0 <= j < |nodes[k].data.columns.items| ==> nodes[k].data.columns.items[j].colType.Str?
  }

  lemma {:induction false} ColumnLinesOk(nodeId: string, cs: seq<Column>)
    ensures ColumnLines(nodeId, cs).Ok? <==> forall j :: 0 <= j < |cs| ==> cs[j].colType.Str?
    ensures ColumnLines(nodeId, cs).Ok? ==> |ColumnLines(nodeId, cs).value| == |cs|
  {
    if cs != [] {
      var init := cs[..|cs| - 1];
      ColumnLinesOk(nodeId, init);
      assert forall j :: 0 <= j < |init| ==> init[j] == cs[j];
    }
  }

  lemma {:induction false} CreateBlocksOk(nodes: seq<Node>)
    ensures CreateBlocks(nodes).Ok? <==> Exportable(nodes)
  {
    if nodes != [] {
      var init := nodes[..|nodes| - 1];
      CreateBlocksOk(init);
      assert forall k :: 0 <= k < |init| ==> init[k] == nodes[k];
      var last := nodes[|nodes| - 1];
      if last.data.columns.Arr? {
        ColumnLinesOk(last.id, last.data.columns.items);
      }
    }
  }

  /** The second pass can fail only on a node without a column array. */
  lemma {:induction false} AlterStatementsOk(nodes: seq<Node>, edges: seq<Edge>)
    requires forall k :: 0 <= k < |nodes| ==> nodes[k].data.columns.Arr?
    ensures AlterStatements(nodes, edges).Ok?
  {
    if edges != [] {
      AlterStatementsOk(nodes, edges[..|edges| - 1]);
      var src := FindNode(nodes, edges[|edges| - 1].source);
      if src.Some? {
        var m :| 0 <= m < |nodes| && nodes[m] == src.value && forall j :: 0 <= j < m ==> nodes[j].id != edges[|edges| - 1].source;
      }
    }
  }

  /** `generateSQL` throws exactly when some node's columns are not an array
      or some column's type is not a string; foreign-key edges never make it
      throw on their own. */
  lemma SqlOkIff(nodes: seq<Node>, edges: seq<Edge>)
    ensures Sql(nodes, edges).Ok? <==> Exportable(nodes)
  {
    CreateBlocksOk(nodes);
    if Exportable(nodes) {
      AlterStatementsOk(nodes, edges);
    }
  }

  /** An edge with a missing endpoint, or whose source has no foreign-key
      column, adds no text. */
  lemma AlterSilent(nodes: seq<Node>, e: Edge)
    requires || FindNode(nodes, e.source).None?
             || FindNode(nodes, e.target).None?
             || (&& FindNode(nodes, e.source).value.data.columns.Arr?
                 && var cs := FindNode(nodes, e.source).value.data.columns.items;
                    forall k :: 0 <= k < |cs| ==> !Truthy(cs[k].isForeignKey))
    ensures AlterStatement(nodes, e) == Ok("")
  {
  }

  // ---------------------------------------------------------------------------
  // Worked examples.

  function TableNamed(id: string, name: string, columns: seq<Column>): Node {
    Node(id, TableKind, Position(0.0, 0.0), NodeData(Str(name), Undefined, Arr(columns), Undefined, map[]),
         NoStyle, map[])
  }

  function PlainEdge(source: string, target: string): Edge {
    Edge(Str("e1"), source, target, Null, Null, Str("default"), Bool(false), None, map[])
  }

  const UsersColumns: seq<Column> :=
    [Column(Str("id"), Str("integer"), Bool(true), Bool(false), Undefined),
     Column(Str("email"), Str("varchar"), Bool(false), Bool(false), Undefined)]

  /** The text as the code appends it: the header, the lines joined by
      `,\n`, and the footer. */
  const UsersSql: string :=
    "CREATE TABLE users (\n" + "  id INTEGER PRIMARY KEY" + ",\n" + "  email VARCHAR" + "\n);\n\n"

  lemma UpperInteger()
    ensures Upper("integer") == "INTEGER"
  {
  }

  lemma UpperVarchar()
    ensures Upper("varchar") == "VARCHAR"
  {
  }

  lemma IdLine()
    ensures ColumnLine("n1", UsersColumns[0]) == Ok("  id INTEGER PRIMARY KEY")
  {
    UpperInteger();
    assert ColumnLine("n1", UsersColumns[0]) == Ok("  " + "id" + " " + "INTEGER" + " PRIMARY KEY");
    assert "  " + "id" + " " + "INTEGER" + " PRIMARY KEY" == "  id INTEGER PRIMARY KEY";
  }

  lemma EmailLine()
    ensures ColumnLine("n1", UsersColumns[1]) == Ok("  email VARCHAR")
  {
    UpperVarchar();
    assert ColumnLine("n1", UsersColumns[1]) == Ok("  " + "email" + " " + "VARCHAR" + "");
    assert "  " + "email" + " " + "VARCHAR" + "" == "  email VARCHAR";
  }

  lemma UsersColumnLines()
    ensures ColumnLines("n1", UsersColumns) == Ok(["  id INTEGER PRIMARY KEY", "  email VARCHAR"])
  {
    var c0, c1 := UsersColumns[0], UsersColumns[1];
    assert UsersColumns == [c0, c1];
    IdLine();
    EmailLine();
    assert [c0][..0] == [];
    assert ColumnLines("n1", [c0]) == Ok([] + ["  id INTEGER PRIMARY KEY"]);
    assert [] + ["  id INTEGER PRIMARY KEY"] == ["  id INTEGER PRIMARY KEY"];
    assert [c0, c1][..1] == [c0];
    assert [c0, c1][1] == c1;
    assert ColumnLines("n1", [c0, c1]) == Ok(["  id INTEGER PRIMARY KEY"] + ["  email VARCHAR"]);
    assert ["  id INTEGER PRIMARY KEY"] + ["  email VARCHAR"] == ["  id INTEGER PRIMARY KEY", "  email VARCHAR"];
  }

  lemma UsersBlock()
    ensures CreateBlock(TableNamed("n1", "users", UsersColumns)) == Ok(UsersSql)
  {
    UsersColumnLines();
    var l0, l1 := "  id INTEGER PRIMARY KEY", "  email VARCHAR";
    var lines := [l0, l1];
    assert lines[..1] == [l0] && lines[1] == l1;
    var joined := Join(lines, ",\n");
    assert joined == l0 + ",\n" + l1;
    var head := "CREATE TABLE " + "users" + " (\n";
    assert head == "CREATE TABLE users (\n";
    var foot := "\n);\n\n";
    assert CreateBlock(TableNamed("n1", "users", UsersColumns)) == Ok(head + joined + foot);
    assert head + (l0 + ",\n" + l1) + foot == head + l0 + ",\n" + l1 + foot;
  }

  /** One `users` table with a primary `id integer` and an `email varchar`. */
  lemma UsersTableExample()
    ensures Sql([TableNamed("n1", "users", UsersColumns)], []) == Ok(UsersSql)
  {
    var n := TableNamed("n1", "users", UsersColumns);
    UsersBlock();
    assert [n][..0] == [];
    assert CreateBlocks([n]) == Ok("" + UsersSql);
    assert "" + UsersSql == UsersSql;
    assert AlterStatements([n], []) == Ok("");
    assert UsersSql + "" == UsersSql;
  }

  const ForeignKeyColumn: Column := Column(Str("user_id"), Str("integer"), Bool(false), Bool(true), Str("users"))

  const OrdersTable: Node := TableNamed("o", "orders", [ForeignKeyColumn])

  const UsersTable: Node :=
    TableNamed("u", "users", [Column(Str("id"), Str("integer"), Bool(true), Bool(false), Null)])

  lemma ForeignKeyEndpoints()
    ensures FindNode([OrdersTable, UsersTable], "o") == Some(OrdersTable)
    ensures FindNode([OrdersTable, UsersTable], "u") == Some(UsersTable)
  {
    var ns := [OrdersTable, UsersTable];
    assert ns[1..] == [UsersTable];
    assert FindNode([UsersTable], "u") == Some(UsersTable);
  }

  lemma AlterLine()
    ensures "ALTER TABLE " + "orders" + "\n" == "ALTER TABLE orders\n"
  {
  }

  lemma ReferencesLine()
    ensures "ADD FOREIGN KEY (" + "user_id" + ") REFERENCES " + "users" + "(id);\n\n"
            == "ADD FOREIGN KEY (user_id) REFERENCES users(id);\n\n"
  {
  }

  lemma ForeignKeyLines()
    ensures ForeignKeyText(Str("orders"), Str("user_id"), Str("users"))
            == "ALTER TABLE orders\n" + "ADD FOREIGN KEY (user_id) REFERENCES users(id);\n\n"
  {
    AlterLine();
    ReferencesLine();
  }

  lemma ForeignKeyStatement()
    ensures AlterStatement([OrdersTable, UsersTable], PlainEdge("o", "u"))
            == Ok(ForeignKeyText(Str("orders"), Str("user_id"), Str("users")))
  {
    ForeignKeyEndpoints();
    assert OrdersTable.data.columns == Arr([ForeignKeyColumn]);
    assert FirstForeignKey([ForeignKeyColumn]) == Some(ForeignKeyColumn);
  }

  /** An `orders` table whose foreign key `user_id` is linked to `users`. */
  lemma ForeignKeyExample()
    ensures AlterStatements([OrdersTable, UsersTable], [PlainEdge("o", "u")])
            == Ok("ALTER TABLE orders\n" + "ADD FOREIGN KEY (user_id) REFERENCES users(id);\n\n")
  {
    ForeignKeyStatement();
    ForeignKeyLines();
    var es := [PlainEdge("o", "u")];
    assert es[..0] == [] && es[0] == PlainEdge("o", "u");
    var stmt := "ALTER TABLE orders\n" + "ADD FOREIGN KEY (user_id) REFERENCES users(id);\n\n";
    assert AlterStatements([OrdersTable, UsersTable], es) == Ok("" + stmt);
    assert "" + stmt == stmt;
  }

  // ---------------------------------------------------------------------------
  // generateJSON: the document value before `JSON.stringify`.

  datatype JsonTable = JsonTable(name: Value, columns: seq<Column>)
  datatype Relationship = Relationship(sourceTable: Value, targetTable: Value, relType: string)
  datatype JsonDocument = JsonDocument(tables: seq<JsonTable>, relationships: seq<Relationship>)

  /** `nodes.find(n => n.id === id)?.data.label`. */
  function EndpointLabel(nodes: seq<Node>, id: string): (r: Value)
    ensures FindNode(nodes, id).None? ==> r == Undefined
    ensures FindNode(nodes, id).Some? ==> r == FindNode(nodes, id).value.data.title
  {
    match FindNode(nodes, id)
    case None => Undefined
    case Some(n) => n.data.title
  }

  /** The first node whose `columns` is not an array. */
  function FirstWithoutColumns(nodes: seq<Node>): (r: Option<nat>)
    ensures r.None? <==> forall k :: 0 <= k < |nodes| ==> nodes[k].data.columns.Arr?
    ensures r.Some? ==> r.value < |nodes| && nodes[r.value].data.columns.NotArr?
                        && forall k :: 0 <= k < r.value ==> nodes[k].data.columns.Arr?
  {
    if nodes == [] then None
    else if nodes[0].data.columns.NotArr? then Some(0)
    else match FirstWithoutColumns(nodes[1..])
      case None => None
      case Some(k) => Some(k + 1)
  }

  /** `generateJSON`: one table per node (its label and its columns'
      five fields, which are all a column has here) and one many-to-one
      relationship per edge, named by the endpoints' labels; it throws on the
      first node whose `columns` is not an array. */
  function GenerateJson(nodes: seq<Node>, edges: seq<Edge>): (r: Result<JsonDocument, ExportError>)
    ensures r.Ok? <==> forall k :: 0 <= k < |nodes| ==> nodes[k].data.columns.Arr?
    ensures r.Err? ==> exists k :: 0 <= k < |nodes| && r.error == ColumnsNotArray(nodes[k].id)
                                   && nodes[k].data.columns.NotArr?
    ensures r.Ok? ==>
              && |r.value.tables| == |nodes|
              && (forall k :: 0 <= k < |nodes| ==>
                    r.value.tables[k] == JsonTable(nodes[k].data.title, nodes[k].data.columns.items))
              && |r.value.relationships| == |edges|
              && (forall k :: 0 <= k < |edges| ==>
                    r.value.relationships[k]
                    == Relationship(EndpointLabel(nodes, edges[k].source), EndpointLabel(nodes, edges[k].target),
                                    "many-to-one"))
  {
    match FirstWithoutColumns(nodes)
    case Some(k) => Err(ColumnsNotArray(nodes[k].id))
    case None =>
      Ok(JsonDocument(
        seq(|nodes|, k requires 0 <= k < |nodes| => JsonTable(nodes[k].data.title, nodes[k].data.columns.items)),
        seq(|edges|, k requires 0 <= k < |edges| =>
          Relationship(EndpointLabel(nodes, edges[k].source), EndpointLabel(nodes, edges[k].target), "many-to-one"))))
  }

  /** Whenever the SQL export succeeds, so does the JSON export, and the two
      name the same tables in the same order. */
  lemma SqlOkThenJsonOk(nodes: seq<Node>, edges: seq<Edge>)
    requires Sql(nodes, edges).Ok?
    ensures GenerateJson(nodes, edges).Ok?
    ensures forall k :: 0 <= k < |nodes| ==> GenerateJson(nodes, edges).value.tables[k].name == nodes[k].data.title
  {
    SqlOkIff(nodes, edges);
  }

  // ---------------------------------------------------------------------------
  // Both exporters treat every node as a table. A colour chooser node as
  // `handleAddColorChooser` creates it has no `columns`, so either exporter
  // throws on a canvas that holds one; after a save has sanitized it the
  // node has an empty column array and becomes an empty `CREATE TABLE`.

  /** A colour chooser as `handleAddColorChooser` creates it. */
  const ColourChooser: Node :=
    Node("color-2", ColorKind, Position(0.0, 0.0),
         NodeData(Str("Color 2"), Str("#4D55CC"), NotArr(Undefined), Undefined, map[]), NoStyle, map[])

  /** As written: a colour chooser beside a table makes both exports fail. */
  lemma ColourChooserBreaksExport()
    ensures Sql([UsersTable, ColourChooser], []) == Err(ColumnsNotArray("color-2"))
    ensures GenerateJson([UsersTable, ColourChooser], []) == Err(ColumnsNotArray("color-2"))
  {
    var ns := [UsersTable, ColourChooser];
    CreateBlocksOk([UsersTable]);
    assert ns[..1] == [UsersTable];
    assert ns[1..] == [ColourChooser];
  }

  /** As written: once sanitized (which gives it an empty column array), the
      colour chooser is exported as a table with no columns. */
  lemma SanitizedColourChooserBecomesTable()
    ensures Sql([ColourChooser.(data := ColourChooser.data.(columns := Arr([])))], [])
            == Ok("CREATE TABLE Color 2 (\n\n);\n\n")
  {
    var n := ColourChooser.(data := ColourChooser.data.(columns := Arr([])));
    var block := "CREATE TABLE " + "Color 2" + " (\n" + "" + "\n);\n\n";
    assert block == "CREATE TABLE Color 2 (\n\n);\n\n";
    assert ColumnLines(n.id, []) == Ok([]);
    assert CreateBlock(n) == Ok(block);
    assert [n][..0] == [];
    assert CreateBlocks([n]) == Ok("" + block);
    assert "" + block == block && block + "" == block;
    assert AlterStatements([n], []) == Ok("");
  }

  /** The table nodes, in order. */
  function TablesOnly(nodes: seq<Node>): (r: seq<Node>)
    ensures forall n :: n in r <==> n in nodes && n.kind == TableKind
  {
    Filter(nodes, (n: Node) => n.kind == TableKind)
  }

  /** Every table node has an array of columns with string types. */
  predicate TablesExportable(nodes: seq<Node>) {
    forall k :: 0 <= k < |nodes| && nodes[k].kind == TableKind ==>
      && nodes[k].data.columns.Arr?
      && forall j :: 0 <= j < |nodes[k].data.columns.items| ==> nodes[k].data.columns.items[j].colType.Str?
  }

  /** The SQL export over the table nodes only. */
  function SqlForTables(nodes: seq<Node>, edges: seq<Edge>): Result<string, ExportError> {
    Sql(TablesOnly(nodes), edges)
  }

  /** The JSON export over the table nodes only. */
  function JsonForTables(nodes: seq<Node>, edges: seq<Edge>): Result<JsonDocument, ExportError> {
    GenerateJson(TablesOnly(nodes), edges)
  }

  /** Corrected: the export fails only on a malformed table node, whatever
      other nodes the canvas holds. */
  lemma SqlForTablesOkIff(nodes: seq<Node>, edges: seq<Edge>)
    ensures SqlForTables(nodes, edges).Ok? <==> TablesExportable(nodes)
    ensures TablesExportable(nodes) ==> JsonForTables(nodes, edges).Ok?
  {
    var ts := TablesOnly(nodes);
    SqlOkIff(ts, edges);
    if TablesExportable(nodes) {
      forall k | 0 <= k < |ts|
        ensures ts[k].data.columns.Arr?
        ensures forall j :: 0 <= j < |ts[k].data.columns.items| ==> ts[k].data.columns.items[j].colType.Str?
      {
        assert ts[k] in nodes;
        var m :| 0 <= m < |nodes| && nodes[m] == ts[k];
      }
    } else {
      var m :| 0 <= m < |nodes| && nodes[m].kind == TableKind
               && !(nodes[m].data.columns.Arr?
                    && forall j :: 0 <= j < |nodes[m].data.columns.items| ==> nodes[m].data.columns.items[j].colType.Str?);
      assert nodes[m] in ts;
      var k :| 0 <= k < |ts| && ts[k] == nodes[m];
    }
  }

  /** Corrected: on a canvas of tables only, nothing changes. */
  lemma SqlForTablesAgrees(nodes: seq<Node>, edges: seq<Edge>)
    requires forall k :: 0 <= k < |nodes| ==> nodes[k].kind == TableKind
    ensures SqlForTables(nodes, edges) == Sql(nodes, edges)
    ensures JsonForTables(nodes, edges) == GenerateJson(nodes, edges)
  {
    FilterKeepsAll(nodes, (n: Node) => n.kind == TableKind);
  }

  /** Corrected: the colour chooser is skipped and the table is exported. */
  lemma ColourChooserSkipped()
    ensures SqlForTables([UsersTable, ColourChooser], []) == Sql([UsersTable], [])
  {
    var p := (n: Node) => n.kind == TableKind;
    FilterConcat([UsersTable], [ColourChooser], p);
    assert [UsersTable] + [ColourChooser] == [UsersTable, ColourChooser];
    FilterKeepsAll([UsersTable], p);
    assert [ColourChooser][1..] == [];
  }
}
