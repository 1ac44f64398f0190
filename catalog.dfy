// The schema model of the generator (tables, columns, foreign keys) and the
// Metadata Reader that groups already-fetched catalog rows into it.

module Schema {
  import opened Wrappers

  /** One column of a table as the generator sees it. */
  datatype Column = Column(name: string, required: bool, dataType: string, maxLength: Option<nat>)

  /** An outgoing reference from local `column` to `refTable.refColumn`;
      `refDescription` is the referenced table's label column, null when none was found. */
  datatype Fk = Fk(column: string, refTable: string, refColumn: string, refDescription: Option<string>)

  datatype Table = Table(name: string, columns: seq<Column>, primaryKeys: seq<string>, foreignKeys: seq<Fk>)

  /** Generation-time failures (thrown as `Error` by the generator). */
  datatype GenError =
    | NoTablesFound(tables: string)   // 'No tables found! Tables informed: ' + tables
    | CurrentTableUndefined           // a row before any row with rn === 1: `currTable` is undefined
    | NoPrimaryKeys                   // 'No primary keys'
}

module Catalog {
  import opened Wrappers
  import opened JsText
  import opened Schema

  /** A row of the column-metadata query, already ranked by the database:
      `rn` is the row number inside its table, primary-key columns first. */
  datatype CatalogRow = CatalogRow(
    columnName: string,
    isNullable: string,
    dataType: string,
    maxLength: Option<nat>,
    columnKey: string,
    tableName: string,
    rn: int)

  /** A row of the foreign-key query; `descriptionColumn` comes from a left join and may be null. */
  datatype FkRow = FkRow(
    columnName: string,
    referencedTableName: string,
    referencedColumnName: string,
    descriptionColumn: Option<string>)

  // ---------------------------------------------------------------------
  // getTableFKs: rows of the foreign-key query as Fk records
  // ---------------------------------------------------------------------

  function FkOfRow(row: FkRow): Fk {
    Fk(row.columnName, row.referencedTableName, row.referencedColumnName, row.descriptionColumn)
  }

  function RowOfFk(fk: Fk): FkRow {
    FkRow(fk.column, fk.refTable, fk.refColumn, fk.refDescription)
  }

  function TableFks(rows: seq<FkRow>): seq<Fk> {
    seq(|rows|, k requires 0 <= k < |rows| => FkOfRow(rows[k]))
  }

  /** The conversion is one record per row, in row order, and loses nothing. */
  lemma TableFksIsOneToOne(rows: seq<FkRow>)
    ensures |TableFks(rows)| == |rows|
    ensures seq(|rows|, k requires 0 <= k < |rows| => RowOfFk(TableFks(rows)[k])) == rows
  {
  }

  // ---------------------------------------------------------------------
  // getTablesInfo: the column query and the grouping loop
  // ---------------------------------------------------------------------

  /** The column-metadata query, split at its `:tables` marker (the ranking is done by the database). */
  const SqlSelBefore: string :=
    "\n"
    + "        select \n"
    + "            col.column_name,\n"
    + "            col.is_nullable,\n"
    + "            col.data_type,\n"
    + "            col.character_maximum_length,\n"
    + "            col.column_key,\n"
    + "            col.ordinal_position,\n"
    + "            col.table_name,\n"
    + "            row_number() over(partition by col.table_name order by \n"
    + "            case \n"
    + "                when col.column_key = 'PRI' then 0\n"
    + "            else\n"
    + "                1\n"
    + "            end,\n"
    + "            col.ordinal_position) rn\n"
    + "        from \n"
    + "            INFORMATION_SCHEMA.columns col\n"
    + "        where\n"
    + "            table_name in ("
  const SqlSelAfter: string := ")\n            and table_schema = ?\n"

  datatype Query = Query(sql: string, params: seq<string>)

  /** The query issued for the comma-separated table list: `:tables` becomes one
      `?` per table name and the parameters are the names followed by the schema. */
  function ColumnsQuery(tables: string, schema: string): (q: Query)
    ensures |q.params| == CountChar(tables, ',') + 2
    ensures Join(q.params[..|q.params| - 1], ",") == tables && q.params[|q.params| - 1] == schema
  {
    var names := Split(tables, ',');
    JoinSplit(tables, ',');
    assert (names + [schema])[..|names|] == names;
    Query(SqlSelBefore + Placeholders(|names|, ",") + SqlSelAfter, names + [schema])
  }

  /** The catalog query binds one value per placeholder it adds, and the names are the configured list. */
  lemma ColumnsQueryPlaceholders(tables: string, schema: string)
    ensures var q := ColumnsQuery(tables, schema);
      CountChar(q.sql, '?') == CountChar(SqlSelBefore, '?') + (|q.params| - 1) + CountChar(SqlSelAfter, '?')
    ensures Join(ColumnsQuery(tables, schema).params[..|ColumnsQuery(tables, schema).params| - 1], ",") == tables
  {
    var names := Split(tables, ',');
    assert CountChar(",", '?') == 0 by { assert ","[..0] == ""; }
    PlaceholderCount(|names|, ",");
    CountCharAppend(SqlSelBefore, Placeholders(|names|, ","), '?');
    CountCharAppend(SqlSelBefore + Placeholders(|names|, ","), SqlSelAfter, '?');
    JoinSplit(tables, ',');
  }

  function ColumnOfRow(row: CatalogRow): Column {
    Column(row.columnName, row.isNullable == "NO", row.dataType, row.maxLength)
  }

  /** The table record created at a row with rn === 1, before that row's column is added. */
  function StartTable(row: CatalogRow, fkQuery: string -> seq<FkRow>): Table {
    Table(row.tableName, [], [], TableFks(fkQuery(row.tableName)))
  }

  /** What one row adds to the current table. */
  function AddRow(t: Table, row: CatalogRow): Table {
    t.(columns := t.columns + [ColumnOfRow(row)],
       primaryKeys := t.primaryKeys + KeyOf(row))
  }

  /** The primary key a row contributes: its name when its column key is 'PRI'. */
  function KeyOf(row: CatalogRow): seq<string> {
    if row.columnKey == "PRI" then [row.columnName] else []
  }

  /** The tables built from `rows`, read left to right; fails when a row arrives before any table was started. */
  function Group(rows: seq<CatalogRow>, fkQuery: string -> seq<FkRow>): (r: Result<seq<Table>, GenError>)
    ensures r.Ok? && |rows| > 0 ==> |r.value| > 0
    decreases |rows|
  {
    if |rows| == 0 then Ok([])
    else
      var prev := Group(rows[..|rows| - 1], fkQuery);
      if prev.Err? then prev else Step(prev.value, rows[|rows| - 1], fkQuery)
  }

  /** One iteration of the loop: start a table at rn === 1, then add the row to the current (last) table. */
  function Step(ts: seq<Table>, row: CatalogRow, fkQuery: string -> seq<FkRow>): (r: Result<seq<Table>, GenError>)
    ensures r.Ok? ==> |r.value| > 0
  {
    var ts' := Opened(ts, row, fkQuery);
    if |ts'| == 0 then Err(CurrentTableUndefined) else Ok(AddToLast(ts', row))
  }

  /** The table list once a row with rn === 1 has pushed its new table. */
  function Opened(ts: seq<Table>, row: CatalogRow, fkQuery: string -> seq<FkRow>): seq<Table> {
    if row.rn == 1 then ts + [StartTable(row, fkQuery)] else ts
  }

  /** `currTable.columns.push(...)`: the current table is always the last one pushed. */
  function AddToLast(ts: seq<Table>, row: CatalogRow): (r: seq<Table>)
    requires |ts| > 0
    ensures |r| == |ts|
  {
    ts[..|ts| - 1] + [AddRow(ts[|ts| - 1], row)]
  }

  function TablesInfo(tables: string, rows: seq<CatalogRow>, fkQuery: string -> seq<FkRow>): Result<seq<Table>, GenError> {
    if |rows| == 0 then Err(NoTablesFound(tables)) else Group(rows, fkQuery)
  }

  /** getTablesInfo once the rows of the column query have come back. */
  method GetTablesInfo(tables: string, rows: seq<CatalogRow>, fkQuery: string -> seq<FkRow>)
    returns (r: Result<seq<Table>, GenError>)
    ensures r == TablesInfo(tables, rows, fkQuery)
  {
    if |rows| == 0 {
      return Err(NoTablesFound(tables));
    }
    var ts: seq<Table> := [];
    var i := 0;
    while i < |rows|
      invariant 0 <= i <= |rows|
      invariant Group(rows[..i], fkQuery) == Ok(ts)
    {
      var row := rows[i];
      assert rows[..i + 1][..i] == rows[..i];
      if row.rn == 1 {
        ts := ts + [StartTable(row, fkQuery)];
      }
      if |ts| == 0 {
        GroupFailsIffFirstRowStartsNoTable(rows, fkQuery);
        return Err(CurrentTableUndefined);
      }
      ts := AddToLast(ts, row);
      i := i + 1;
    }
    assert rows[..i] == rows;
    return Ok(ts);
  }

  // ---------------------------------------------------------------------
  // What the grouping promises
  // ---------------------------------------------------------------------

  /** Grouping fails exactly when the first row does not start a table, and then with CurrentTableUndefined. */
  lemma {:induction false} GroupFailsIffFirstRowStartsNoTable(rows: seq<CatalogRow>, fkQuery: string -> seq<FkRow>)
    requires |rows| > 0
    ensures Group(rows, fkQuery).Err? <==> rows[0].rn != 1
    ensures Group(rows, fkQuery).Err? ==> Group(rows, fkQuery) == Err(CurrentTableUndefined)
    decreases |rows|
  {
    if |rows| > 1 {
      var rows' := rows[..|rows| - 1];
      GroupFailsIffFirstRowStartsNoTable(rows', fkQuery);
      assert rows'[0] == rows[0];
    }
  }

  function RowColumns(rows: seq<CatalogRow>): seq<Column> {
    seq(|rows|, i requires 0 <= i < |rows| => ColumnOfRow(rows[i]))
  }

  /** Names of the rows whose column key is 'PRI', in row order. */
  function PriNames(rows: seq<CatalogRow>): seq<string>
    decreases |rows|
  {
    if |rows| == 0 then []
    else
      var row := rows[|rows| - 1];
      PriNames(rows[..|rows| - 1]) + KeyOf(row)
  }

  /** Rows with rn === 1, each of which starts a table. */
  function StartNames(rows: seq<CatalogRow>): seq<string>
    decreases |rows|
  {
    if |rows| == 0 then []
    else
      var row := rows[|rows| - 1];
      StartNames(rows[..|rows| - 1]) + (if row.rn == 1 then [row.tableName] else [])
  }

  function AllColumns(ts: seq<Table>): seq<Column>
    decreases |ts|
  {
    if |ts| == 0 then [] else AllColumns(ts[..|ts| - 1]) + ts[|ts| - 1].columns
  }

  function AllKeys(ts: seq<Table>): seq<string>
    decreases |ts|
  {
    if |ts| == 0 then [] else AllKeys(ts[..|ts| - 1]) + ts[|ts| - 1].primaryKeys
  }

  function TableNames(ts: seq<Table>): seq<string>
    decreases |ts|
  {
    if |ts| == 0 then [] else TableNames(ts[..|ts| - 1]) + [ts[|ts| - 1].name]
  }

  /** Adding a row to the current table adds its column and key at the end of the flattened views. */
  lemma AddRowToLast(ts: seq<Table>, row: CatalogRow)
    requires |ts| > 0
    ensures AllColumns(AddToLast(ts, row)) == AllColumns(ts) + [ColumnOfRow(row)]
    ensures AllKeys(AddToLast(ts, row)) == AllKeys(ts) + KeyOf(row)
    ensures TableNames(AddToLast(ts, row)) == TableNames(ts)
  {
    AddRowToLastColumns(ts, row);
    AddRowToLastKeys(ts, row);
    AddRowToLastNames(ts, row);
  }

  lemma AddRowToLastColumns(ts: seq<Table>, row: CatalogRow)
    requires |ts| > 0
    ensures AllColumns(AddToLast(ts, row)) == AllColumns(ts) + [ColumnOfRow(row)]
  {
    var init := ts[..|ts| - 1];
    var last := ts[|ts| - 1];
    assert AddToLast(ts, row) == init + [AddRow(last, row)];
    AllOfSnoc(init, AddRow(last, row));
    AllOfSnoc(init, last);
    InitPlusLast(ts);
    AppendAssoc(AllColumns(init), last.columns, [ColumnOfRow(row)]);
  }

  lemma AddRowToLastKeys(ts: seq<Table>, row: CatalogRow)
    requires |ts| > 0
    ensures AllKeys(AddToLast(ts, row)) == AllKeys(ts) + KeyOf(row)
  {
    var init := ts[..|ts| - 1];
    var last := ts[|ts| - 1];
    assert AddToLast(ts, row) == init + [AddRow(last, row)];
    AllOfSnoc(init, AddRow(last, row));
    AllOfSnoc(init, last);
    InitPlusLast(ts);
    AppendAssoc(AllKeys(init), last.primaryKeys, KeyOf(row));
  }

  lemma AddRowToLastNames(ts: seq<Table>, row: CatalogRow)
    requires |ts| > 0
    ensures TableNames(AddToLast(ts, row)) == TableNames(ts)
  {
    var init := ts[..|ts| - 1];
    var last := ts[|ts| - 1];
    assert AddToLast(ts, row) == init + [AddRow(last, row)];
    AllOfSnoc(init, AddRow(last, row));
    AllOfSnoc(init, last);
    InitPlusLast(ts);
  }

  lemma AppendAssoc<T>(a: seq<T>, b: seq<T>, c: seq<T>)
    ensures (a + b) + c == a + (b + c)
  {
  }

  lemma InitPlusLast<T>(s: seq<T>)
    requires |s| > 0
    ensures s[..|s| - 1] + [s[|s| - 1]] == s
  {
  }

  lemma AllOfSnoc(ts: seq<Table>, t: Table)
    ensures AllColumns(ts + [t]) == AllColumns(ts) + t.columns
    ensures AllKeys(ts + [t]) == AllKeys(ts) + t.primaryKeys
    ensures TableNames(ts + [t]) == TableNames(ts) + [t.name]
  {
    assert (ts + [t])[..|ts|] == ts;
  }

  lemma StartTableOnTop(ts: seq<Table>, row: CatalogRow, fkQuery: string -> seq<FkRow>)
    ensures var ts' := ts + [StartTable(row, fkQuery)];
      && AllColumns(ts') == AllColumns(ts)
      && AllKeys(ts') == AllKeys(ts)
      && TableNames(ts') == TableNames(ts) + [row.tableName]
  {
    var ts' := ts + [StartTable(row, fkQuery)];
    assert ts'[..|ts'| - 1] == ts;
  }

  lemma RowColumnsSnoc(rows: seq<CatalogRow>)
    requires |rows| > 0
    ensures RowColumns(rows) == RowColumns(rows[..|rows| - 1]) + [ColumnOfRow(rows[|rows| - 1])]
  {
  }

  /** The result of grouping one more row, spelled out. */
  lemma GroupUnfold(rows: seq<CatalogRow>, fkQuery: string -> seq<FkRow>)
    requires |rows| > 0 && Group(rows, fkQuery).Ok?
    ensures Group(rows[..|rows| - 1], fkQuery).Ok?
    ensures var ts' := Opened(Group(rows[..|rows| - 1], fkQuery).value, rows[|rows| - 1], fkQuery);
      |ts'| > 0 && Group(rows, fkQuery) == Ok(AddToLast(ts', rows[|rows| - 1]))
  {
  }

  /** Every row becomes one column, in row order, every 'PRI' row one primary key, in row order,
      and every row with rn === 1 one table named after it. */
  lemma {:induction false} GroupKeepsEveryRow(rows: seq<CatalogRow>, fkQuery: string -> seq<FkRow>)
    requires Group(rows, fkQuery).Ok?
    ensures AllColumns(Group(rows, fkQuery).value) == RowColumns(rows)
    ensures AllKeys(Group(rows, fkQuery).value) == PriNames(rows)
    ensures TableNames(Group(rows, fkQuery).value) == StartNames(rows)
    decreases |rows|
  {
    if |rows| > 0 {
      var rows' := rows[..|rows| - 1];
      var row := rows[|rows| - 1];
      GroupUnfold(rows, fkQuery);
      GroupKeepsEveryRow(rows', fkQuery);
      var ts := Group(rows', fkQuery).value;
      var ts' := Opened(ts, row, fkQuery);
      if row.rn == 1 {
        StartTableOnTop(ts, row, fkQuery);
      }
      AddRowToLast(ts', row);
      RowColumnsSnoc(rows);
    }
  }

  /** A run of rows that starts with rn === 1 and has no other such row is exactly one table. */
  lemma {:induction false} GroupOneTable(rows: seq<CatalogRow>, fkQuery: string -> seq<FkRow>)
    requires |rows| > 0 && rows[0].rn == 1
    requires forall i :: 1 <= i < |rows| ==> rows[i].rn != 1
    ensures Group(rows, fkQuery)
      == Ok([Table(rows[0].tableName, RowColumns(rows), PriNames(rows), TableFks(fkQuery(rows[0].tableName)))])
    decreases |rows|
  {
    var row := rows[|rows| - 1];
    var rows' := rows[..|rows| - 1];
    GroupFailsIffFirstRowStartsNoTable(rows, fkQuery);
    GroupUnfold(rows, fkQuery);
    RowColumnsSnoc(rows);
    if |rows| > 1 {
      GroupOneTable(rows', fkQuery);
      assert rows'[0] == rows[0];
      assert row.rn != 1;
      var t := Table(rows[0].tableName, RowColumns(rows'), PriNames(rows'), TableFks(fkQuery(rows[0].tableName)));
      assert Group(rows', fkQuery).value == [t];
      assert Opened([t], row, fkQuery) == [t];
      assert AddToLast([t], row) == [AddRow(t, row)];
      assert PriNames(rows) == PriNames(rows') + KeyOf(row);
      assert AddRow(t, row).columns == RowColumns(rows);
      assert AddRow(t, row).primaryKeys == PriNames(rows);
    } else {
      assert rows' == [];
      var t := StartTable(row, fkQuery);
      assert Opened([], row, fkQuery) == [t];
      assert AddToLast([t], row) == [AddRow(t, row)];
      assert PriNames(rows) == KeyOf(row);
      assert AddRow(t, row).columns == RowColumns(rows);
    }
  }

  /** One step only touches the last table, so earlier tables are carried along unchanged. */
  lemma StepOnSuffix(ts1: seq<Table>, ts2: seq<Table>, row: CatalogRow, fkQuery: string -> seq<FkRow>)
    requires |ts2| > 0 || row.rn == 1
    ensures Step(ts2, row, fkQuery).Ok?
    ensures Step(ts1 + ts2, row, fkQuery) == Ok(ts1 + Step(ts2, row, fkQuery).value)
  {
    var a := Opened(ts1 + ts2, row, fkQuery);
    var b := Opened(ts2, row, fkQuery);
    assert a == ts1 + b;
    assert a[..|a| - 1] == ts1 + b[..|b| - 1];
    assert a[|a| - 1] == b[|b| - 1];
    assert AddToLast(a, row) == ts1 + AddToLast(b, row);
  }

  lemma GroupSnoc(rows: seq<CatalogRow>, row: CatalogRow, fkQuery: string -> seq<FkRow>)
    ensures Group(rows + [row], fkQuery)
      == if Group(rows, fkQuery).Err? then Group(rows, fkQuery) else Step(Group(rows, fkQuery).value, row, fkQuery)
  {
    assert (rows + [row])[..|rows|] == rows;
  }

  /** The base case: a single starting row after grouped rows adds its table after theirs. */
  lemma GroupStartRow(rows1: seq<CatalogRow>, row: CatalogRow, fkQuery: string -> seq<FkRow>)
    requires Group(rows1, fkQuery).Ok?
    requires row.rn == 1
    ensures Group([row], fkQuery).Ok?
    ensures Group(rows1 + [row], fkQuery) == Ok(Group(rows1, fkQuery).value + Group([row], fkQuery).value)
  {
    var ts1 := Group(rows1, fkQuery).value;
    GroupSnoc(rows1, row, fkQuery);
    GroupSnoc([], row, fkQuery);
    assert [] + [row] == [row];
    StepOnSuffix(ts1, [], row, fkQuery);
    assert ts1 + [] == ts1;
  }

  /** The inductive step: one more row after two groupings that concatenate keeps them concatenated. */
  lemma GroupSplitStep(rows1: seq<CatalogRow>, rows2: seq<CatalogRow>, row: CatalogRow, fkQuery: string -> seq<FkRow>)
    requires Group(rows1, fkQuery).Ok? && Group(rows2, fkQuery).Ok? && |rows2| > 0
    requires Group(rows1 + rows2, fkQuery) == Ok(Group(rows1, fkQuery).value + Group(rows2, fkQuery).value)
    ensures Group(rows2 + [row], fkQuery).Ok?
    ensures Group(rows1 + rows2 + [row], fkQuery)
      == Ok(Group(rows1, fkQuery).value + Group(rows2 + [row], fkQuery).value)
  {
    var ts1 := Group(rows1, fkQuery).value;
    var ts2 := Group(rows2, fkQuery).value;
    GroupSnoc(rows1 + rows2, row, fkQuery);
    GroupSnoc(rows2, row, fkQuery);
    StepOnSuffix(ts1, ts2, row, fkQuery);
  }

  /** A row with rn === 1 always starts a fresh table: what precedes it is grouped on its own. */
  lemma {:induction false} GroupSplitsAtStart(rows1: seq<CatalogRow>, rows2: seq<CatalogRow>, fkQuery: string -> seq<FkRow>)
    requires Group(rows1, fkQuery).Ok?
    requires |rows2| > 0 && rows2[0].rn == 1
    ensures Group(rows2, fkQuery).Ok?
    ensures Group(rows1 + rows2, fkQuery) == Ok(Group(rows1, fkQuery).value + Group(rows2, fkQuery).value)
    decreases |rows2|
  {
    var row := rows2[|rows2| - 1];
    var rows2' := rows2[..|rows2| - 1];
    assert rows2' + [row] == rows2;
    assert rows1 + rows2' + [row] == rows1 + rows2;
    if |rows2| == 1 {
      assert rows2 == [row];
      GroupStartRow(rows1, row, fkQuery);
    } else {
      GroupSplitsAtStart(rows1, rows2', fkQuery);
      GroupSplitStep(rows1, rows2', row, fkQuery);
    }
  }
}
