// The two SQL constants written at the top of every controller: the INSERT
// statement (mountInsertSQL) and the paged SELECT with its joins (mountSelectSQL).

module SqlText {
  import opened Wrappers
  import opened JsText
  import opened Schema
  import opened Planner

  // ---------------------------------------------------------------------
  // mountInsertSQL
  // ---------------------------------------------------------------------

  function InsertHead(t: Table): seq<string> {
    ["const SQL_INS_" + Upper(t.name) + " = ` ",
     "        insert into " + t.name,
     "        ("]
  }

  /** The line naming insert column k. */
  function InsertColumnLine(ci: seq<Column>, k: nat): string
    requires k < |ci|
  {
    "            " + ci[k].name + Comma(k, |ci|)
  }

  function InsertColumnLines(ci: seq<Column>): (r: seq<string>)
    ensures |r| == |ci|
  {
    seq(|ci|, k requires 0 <= k < |ci| => InsertColumnLine(ci, k))
  }

  /** `values(?, ?, ...)` with one placeholder per insert column. */
  function ValuesLine(n: nat): string {
    "        values(" + Placeholders(n, ", ") + ")"
  }

  function InsertTail(n: nat): seq<string> {
    ["        )", ValuesLine(n), "   `; ", " "]
  }

  function InsertSqlLines(t: Table): seq<string> {
    var ci := NonKeyColumns(t.columns, t.primaryKeys);
    InsertHead(t) + InsertColumnLines(ci) + InsertTail(|ci|)
  }

  /** The statement names the non-key columns one per line, in order, with a comma after all
      but the last, and its values list holds exactly as many placeholders. */
  lemma InsertSqlShape(t: Table)
    ensures var ci := NonKeyColumns(t.columns, t.primaryKeys);
      var lines := InsertSqlLines(t);
      && |lines| == |ci| + 7
      && (forall k :: 0 <= k < |ci| ==>
            lines[3 + k] == "            " + ci[k].name + (if k < |ci| - 1 then "," else ""))
      && lines[|ci| + 4] == ValuesLine(|ci|)
      && CountChar(lines[|ci| + 4], '?') == |ci|
  {
    var ci := NonKeyColumns(t.columns, t.primaryKeys);
    var lines := InsertSqlLines(t);
    assert lines[|ci| + 4] == ValuesLine(|ci|);
    assert CountChar(", ", '?') == 0 by {
      assert ", "[..1] == ",";
      assert ","[..0] == "";
    }
    PlaceholderCount(|ci|, ", ");
    assert CountChar("        values(", '?') == 0 by {
      CountCharSpaces("        values(");
    }
    assert CountChar(")", '?') == 0 by {
      assert ")"[..0] == "";
    }
    CountCharAppend("        values(", Placeholders(|ci|, ", "), '?');
    CountCharAppend("        values(" + Placeholders(|ci|, ", "), ")", '?');
  }

  lemma {:induction false} CountCharSpaces(s: string)
    requires forall i :: 0 <= i < |s| ==> s[i] != '?'
    ensures CountChar(s, '?') == 0
    decreases |s|
  {
    if |s| > 0 {
      CountCharSpaces(s[..|s| - 1]);
    }
  }

  /** The source: select the insert columns, then write one line per column. */
  method MountInsertSql(t: Table) returns (lines: seq<string>, colsInsert: seq<Column>)
    ensures colsInsert == NonKeyColumns(t.columns, t.primaryKeys)
    ensures lines == InsertSqlLines(t)
  {
    lines := InsertHead(t);
    colsInsert := InsertColumns(t);
    ghost var cl := InsertColumnLines(colsInsert);
    var i := 0;
    while i < |colsInsert|
      invariant 0 <= i <= |colsInsert|
      invariant lines == InsertHead(t) + cl[..i]
    {
      assert cl[..i + 1] == cl[..i] + [cl[i]];
      lines := lines + ["            " + colsInsert[i].name + Comma(i, |colsInsert|)];
      i := i + 1;
    }
    assert cl[..i] == cl;
    lines := lines + InsertTail(|colsInsert|);
  }

  // ---------------------------------------------------------------------
  // mountSelectSQL
  // ---------------------------------------------------------------------

  function SelectHead(t: Table): seq<string> {
    ["const SQL_SEL_" + Upper(t.name) + " = ` ",
     "        with ",
     "            bas as",
     "            (",
     "                select "]
  }

  /** Inner query: every table column, selected from the base table. */
  function BaseLines(cs: seq<SelCol>): (r: seq<string>)
    ensures |r| == |cs|
  {
    seq(|cs|, k requires 0 <= k < |cs| => "                    bas." + cs[k].name + ", ")
  }

  /** The line that carries the ordering column of the window. */
  function OrderLine(colOrder: Option<string>): string {
    "                                      " + UndefinedText(colOrder) + ") rn_tbl "
  }

  /** Window, base table and filter marker of the inner query, then the outer select. */
  function WindowLines(t: Table, colOrder: Option<string>): seq<string> {
    ["                    count(1) over() tot_tbl, ",
     "                    row_number() over(order by  ",
     "                                      /*order*/  ",
     OrderLine(colOrder),
     "                from ",
     "                    " + t.name + " bas ",
     "                where",
     "                    1 = 1",
     "                    /*filter*/",
     "            )",
     "        select "]
  }

  /** The outer projection of entry k: id and label of a joined entry, otherwise the base column. */
  function ProjectionBlock(cs: seq<SelCol>, k: nat): (r: seq<string>)
    requires k < |cs|
    ensures |r| == if cs[k].fk.Some? then 2 else 1
  {
    var e := cs[k];
    match e.fk
    case Some(f) =>
      ["            " + f.alias + "." + f.column + " " + f.columnEntity + "_id, ",
       "            " + f.alias + "." + NullableText(f.descriptionColumn) + " " + f.columnEntity
         + "_description  " + Comma(k, |cs|) + "  "]
    case None =>
      ["            bas." + e.name + " " + Comma(k, |cs|) + " "]
  }

  /** The names of the result columns entry k adds to the outer projection: `bas.<name>` keeps the
      column's name, and a joined entry's id and label are renamed `<entity>_id` and
      `<entity>_description`. Each name is the one its projection line gives. */
  function ProjectedColumns(cs: seq<SelCol>, k: nat): (r: seq<string>)
    requires k < |cs|
    ensures |r| == |ProjectionBlock(cs, k)|
    ensures cs[k].fk.None? ==>
      ProjectionBlock(cs, k)[0] == "            bas." + r[0] + " " + Comma(k, |cs|) + " "
    ensures cs[k].fk.Some? ==> var f := cs[k].fk.value;
      && ProjectionBlock(cs, k)[0] == "            " + f.alias + "." + f.column + " " + r[0] + ", "
      && ProjectionBlock(cs, k)[1] == "            " + f.alias + "." + NullableText(f.descriptionColumn)
           + " " + r[1] + "  " + Comma(k, |cs|) + "  "
  {
    match cs[k].fk
    case Some(f) => [f.columnEntity + "_id", f.columnEntity + "_description"]
    case None => [cs[k].name]
  }

  function ProjectionBlocks(cs: seq<SelCol>): (r: seq<seq<string>>)
    ensures |r| == |cs|
  {
    seq(|cs|, k requires 0 <= k < |cs| => ProjectionBlock(cs, k))
  }

  /** The left join that brings in the referenced table of a joined entry. */
  function JoinLine(e: SelCol): string
    requires e.fk.Some?
  {
    var f := e.fk.value;
    "        left join " + f.table + "  " + f.alias + " on " + f.alias + "." + f.column + " = bas." + e.name + " "
  }

  function JoinBlock(e: SelCol): (r: seq<string>)
    ensures |r| == if e.fk.Some? then 1 else 0
  {
    if e.fk.Some? then [JoinLine(e)] else []
  }

  function JoinBlocks(cs: seq<SelCol>): (r: seq<seq<string>>)
    ensures |r| == |cs|
  {
    seq(|cs|, k requires 0 <= k < |cs| => JoinBlock(cs[k]))
  }

  const FromLines: seq<string> := ["        from ", "           bas "]

  const SelectTail: seq<string> :=
    ["        where ",
     "            bas.rn_tbl between ? and ? ",
     "        order by ",
     "            bas.rn_tbl ",
     "   `; ",
     " "]

  /** The `with bas as (...)` part and the head of the outer select. */
  function SelectInner(t: Table, cs: seq<SelCol>, colOrder: Option<string>): seq<string> {
    SelectHead(t) + BaseLines(cs) + WindowLines(t, colOrder)
  }

  /** Outer projection, joins and paging condition. */
  function SelectOuter(cs: seq<SelCol>): seq<string> {
    Flatten(ProjectionBlocks(cs)) + FromLines + Flatten(JoinBlocks(cs)) + SelectTail
  }

  function SelectSqlLines(t: Table, cs: seq<SelCol>, colOrder: Option<string>): seq<string> {
    SelectInner(t, cs, colOrder) + SelectOuter(cs)
  }

  /** Entries that are joined. */
  function FkCount(cs: seq<SelCol>): (r: nat)
    ensures r <= |cs|
    decreases |cs|
  {
    if |cs| == 0 then 0 else FkCount(cs[..|cs| - 1]) + (if cs[|cs| - 1].fk.Some? then 1 else 0)
  }

  lemma {:induction false} ProjectionLength(cs: seq<SelCol>, n: nat)
    requires n <= |cs|
    ensures |Flatten(ProjectionBlocks(cs)[..n])| == n + FkCount(cs[..n])
    ensures |Flatten(JoinBlocks(cs)[..n])| == FkCount(cs[..n])
    decreases n
  {
    if n > 0 {
      ProjectionLength(cs, n - 1);
      FlattenSnoc(ProjectionBlocks(cs), n - 1);
      FlattenSnoc(JoinBlocks(cs), n - 1);
      assert cs[..n][..n - 1] == cs[..n - 1];
    }
  }

  lemma SelectInnerShape(t: Table, cs: seq<SelCol>, colOrder: Option<string>)
    ensures var inner := SelectInner(t, cs, colOrder);
      && |inner| == 16 + |cs|
      && (forall k :: 0 <= k < |cs| ==> inner[5 + k] == "                    bas." + cs[k].name + ", ")
      && inner[8 + |cs|] == OrderLine(colOrder)
  {
    var head := SelectHead(t) + BaseLines(cs);
    assert SelectInner(t, cs, colOrder) == head + WindowLines(t, colOrder);
    assert WindowLines(t, colOrder)[3] == OrderLine(colOrder);
  }

  lemma SelectOuterShape(cs: seq<SelCol>)
    ensures |SelectOuter(cs)| == 8 + |cs| + 2 * FkCount(cs)
    ensures forall k :: 0 <= k < |cs| && cs[k].fk.Some? ==> JoinLine(cs[k]) in SelectOuter(cs)
  {
    ProjectionLength(cs, |cs|);
    assert ProjectionBlocks(cs)[..|cs|] == ProjectionBlocks(cs);
    assert JoinBlocks(cs)[..|cs|] == JoinBlocks(cs);
    assert cs[..|cs|] == cs;
    var before := Flatten(ProjectionBlocks(cs)) + FromLines;
    assert SelectOuter(cs) == before + Flatten(JoinBlocks(cs)) + SelectTail;
    forall k | 0 <= k < |cs| && cs[k].fk.Some?
      ensures JoinLine(cs[k]) in SelectOuter(cs)
    {
      assert JoinLine(cs[k]) in JoinBlocks(cs)[k];
      FlattenMember(JoinBlocks(cs), k, JoinLine(cs[k]));
    }
  }

  /** The statement has one inner column per entry, one or two outer columns per entry, one left
      join per joined entry, orders by the chosen column, and every joined entry's alias is
      introduced by its own left join. */
  lemma SelectSqlShape(t: Table, cs: seq<SelCol>, colOrder: Option<string>)
    ensures var lines := SelectSqlLines(t, cs, colOrder);
      && |lines| == 24 + 2 * |cs| + 2 * FkCount(cs)
      && (forall k :: 0 <= k < |cs| ==> lines[5 + k] == "                    bas." + cs[k].name + ", ")
      && lines[8 + |cs|] == OrderLine(colOrder)
      && (forall k :: 0 <= k < |cs| && cs[k].fk.Some? ==> JoinLine(cs[k]) in lines)
  {
    SelectInnerShape(t, cs, colOrder);
    SelectOuterShape(cs);
  }

  method EmitBaseLines(cs: seq<SelCol>) returns (lines: seq<string>)
    ensures lines == BaseLines(cs)
  {
    lines := [];
    ghost var bl := BaseLines(cs);
    var i := 0;
    while i < |cs|
      invariant 0 <= i <= |cs|
      invariant lines == bl[..i]
    {
      assert bl[..i + 1] == bl[..i] + [bl[i]];
      lines := lines + ["                    bas." + cs[i].name + ", "];
      i := i + 1;
    }
    assert bl[..i] == bl;
  }

  method EmitProjection(cs: seq<SelCol>) returns (lines: seq<string>)
    ensures lines == Flatten(ProjectionBlocks(cs))
  {
    lines := [];
    var i := 0;
    while i < |cs|
      invariant 0 <= i <= |cs|
      invariant lines == Flatten(ProjectionBlocks(cs)[..i])
    {
      FlattenSnoc(ProjectionBlocks(cs), i);
      var e := cs[i];
      if e.fk.Some? {
        var f := e.fk.value;
        lines := lines + ["            " + f.alias + "." + f.column + " " + f.columnEntity + "_id, "];
        lines := lines + ["            " + f.alias + "." + NullableText(f.descriptionColumn) + " " + f.columnEntity
                          + "_description  " + Comma(i, |cs|) + "  "];
      } else {
        lines := lines + ["            bas." + e.name + " " + Comma(i, |cs|) + " "];
      }
      i := i + 1;
    }
    assert ProjectionBlocks(cs)[..i] == ProjectionBlocks(cs);
  }

  method EmitJoins(cs: seq<SelCol>) returns (lines: seq<string>)
    ensures lines == Flatten(JoinBlocks(cs))
  {
    lines := [];
    var i := 0;
    while i < |cs|
      invariant 0 <= i <= |cs|
      invariant lines == Flatten(JoinBlocks(cs)[..i])
    {
      FlattenSnoc(JoinBlocks(cs), i);
      var e := cs[i];
      if e.fk.Some? {
        var f := e.fk.value;
        lines := lines + ["        left join " + f.table + "  " + f.alias + " on " + f.alias + "." + f.column
                          + " = bas." + e.name + " "];
      }
      i := i + 1;
    }
    assert JoinBlocks(cs)[..i] == JoinBlocks(cs);
  }

  /** The source: pick the order column, build the projection list, then write the inner
      columns, the outer projection and the joins in three passes over it. */
  method MountSelectSql(t: Table) returns (lines: seq<string>, colsSelect: seq<SelCol>)
    ensures colsSelect == TableSelColumns(t)
    ensures lines == SelectSqlLines(t, colsSelect, OrderColumn(t))
  {
    var colOrder := ChooseOrderColumn(t);
    colsSelect := GetSelColumns(t);
    var base := EmitBaseLines(colsSelect);
    var projection := EmitProjection(colsSelect);
    var joins := EmitJoins(colsSelect);
    lines := SelectHead(t) + base + WindowLines(t, colOrder) + projection + FromLines + joins + SelectTail;
    assert lines == SelectInner(t, colsSelect, colOrder) + SelectOuter(colsSelect);
  }
}
