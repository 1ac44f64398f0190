// The methods written into a controller class: getSaveOptions, getQuery,
// getByIdNT, getById, saveNT, save, find and the three request adapters.

module ControllerText {
  import opened Wrappers
  import opened JsText
  import opened Schema
  import opened Planner
  import opened Names
  import opened SqlText

  // ---------------------------------------------------------------------
  // getStrColumnIsFilled
  // ---------------------------------------------------------------------

  predicate IsNumeric(c: Column) {
    c.dataType == "int" || c.dataType == "float"
  }

  /** The expression that tests whether a value was given for column c: `prefix.name` (or the
      bare name for an empty prefix), compared with 0 for numeric columns. */
  function IsFilled(c: Column, prefix: string): string {
    var ret := if |prefix| > 0 then prefix + "." + c.name else c.name;
    if IsNumeric(c) then "(" + ret + " >= 0)" else ret
  }

  /** The guard on `data` as both branches of getSaveOptions use it. */
  lemma IsFilledData(c: Column)
    ensures IsFilled(c, "data") == if IsNumeric(c) then "(data." + c.name + " >= 0)" else "data." + c.name
  {
  }

  // ---------------------------------------------------------------------
  // generateGetSaveOptions
  // ---------------------------------------------------------------------

  function IdBusinessParam(inc: bool): string {
    if inc then ", idBusiness" else ""
  }

  function SaveOptionsHead(inc: bool): seq<string> {
    ["    static getSaveOptions(data " + IdBusinessParam(inc) + ") {"]
      + (if inc then
           ["        if (!idBusiness) {",
            "            throw new ErBadRequest('Business id is mandatory');",
            "        }"]
         else [])
  }

  /** A datetime column given as a string is converted to a Date first. */
  function DateBlock(c: Column): seq<string> {
    if c.dataType == "datetime" then
      ["        if (data." + c.name + ") {",
       "            if (typeof data." + c.name + " === 'string') {",
       "                data." + c.name + " = new Date(data." + c.name + ");",
       "            }",
       "        }"]
    else []
  }

  function DateBlocks(cols: seq<Column>): (r: seq<seq<string>>)
    ensures |r| == |cols|
  {
    seq(|cols|, k requires 0 <= k < |cols| => DateBlock(cols[k]))
  }

  const UpdatePrelude: seq<string> :=
    ["        let values = [];",
     "        let sql = '';",
     "        if (data.id) {",
     "            const functUpd = (field) => {",
     "                if (sql !== '') {",
     "                    sql += ', ';",
     "                }",
     "                sql += ` ${field}  = ?`;",
     "                values.push(data[field]);",
     "            }"]

  /** The guard of a required non-key column: on update it adds the column to the SET list,
      on insert its absence is an error. */
  function GuardBlock(c: Column, insert: bool): (r: seq<string>)
    ensures |r| == 3
  {
    if insert then
      ["            if (!" + IsFilled(c, "data") + ") {",
       "                throw new ErBadRequest('" + Capitalize(c.name) + " is mandatory');",
       "            }"]
    else
      ["            if (" + IsFilled(c, "data") + "){",
       "                functUpd('" + c.name + "');",
       "            }"]
  }

  predicate RequiredNonKey(c: Column, pks: seq<string>) {
    c.required && c.name !in pks
  }

  /** One walk over the table columns, as in either branch of the source. */
  function GuardBlocks(cols: seq<Column>, pks: seq<string>, insert: bool): (r: seq<seq<string>>)
    ensures |r| == |cols|
  {
    seq(|cols|, k requires 0 <= k < |cols| =>
      if RequiredNonKey(cols[k], pks) then GuardBlock(cols[k], insert) else [])
  }

  /** `update <table> set ... where k1 = ? and k2 = ?`, the key condition. */
  function KeyConditions(pks: seq<string>): seq<string> {
    seq(|pks|, k requires 0 <= k < |pks| => pks[k] + " = ?")
  }

  function UpdateEnd(t: Table): seq<string> {
    ["            if (values.length === 0){",
     "                throw new ErBadRequest('No values to update!');",
     "            }",
     "            sql = `update " + t.name + " set ${sql} where " + Join(KeyConditions(t.primaryKeys), " and ") + "`;",
     "        } else {"]
  }

  function ValuesHead(t: Table): seq<string> {
    ["            sql = SQL_INS_" + Upper(t.name) + ";",
     "            values = ["]
  }

  /** What follows `data.<name>` in a values entry: varchar values are cut to the column length. */
  function ValueRest(c: Column): string {
    if c.dataType == "varchar" then
      " ? data." + c.name + ".substr(0, " + NullableNumber(c.maxLength) + ") : null"
    else ""
  }

  function ValueLines(ci: seq<Column>): (r: seq<string>)
    ensures |r| == |ci|
  {
    seq(|ci|, k requires 0 <= k < |ci| => "                data." + ci[k].name + ValueRest(ci[k]) + Comma(k, |ci|))
  }

  const SaveOptionsTail: seq<string> :=
    ["            ];",
     "        }",
     "        return {sql, values};",
     "    }",
     " "]

  function SaveOptionsLines(t: Table, colsInsert: seq<Column>, inc: bool): seq<string> {
    SaveOptionsHead(inc)
      + Flatten(DateBlocks(t.columns))
      + UpdatePrelude
      + Flatten(GuardBlocks(t.columns, t.primaryKeys, false))
      + UpdateEnd(t)
      + Flatten(GuardBlocks(t.columns, t.primaryKeys, true))
      + ValuesHead(t)
      + ValueLines(colsInsert)
      + SaveOptionsTail
  }

  /** The required columns that are not primary keys, in table order. */
  function RequiredNonKeyColumns(cols: seq<Column>, pks: seq<string>): (r: seq<Column>)
    ensures forall c :: c in r <==> c in cols && c.required && c.name !in pks
    decreases |cols|
  {
    if |cols| == 0 then []
    else
      var c := cols[|cols| - 1];
      RequiredNonKeyColumns(cols[..|cols| - 1], pks) + (if RequiredNonKey(c, pks) then [c] else [])
  }

  function GuardLines(rs: seq<Column>, insert: bool): seq<string> {
    Flatten(seq(|rs|, k requires 0 <= k < |rs| => GuardBlock(rs[k], insert)))
  }

  lemma GuardLinesSnoc(rs: seq<Column>, c: Column, insert: bool)
    ensures GuardLines(rs + [c], insert) == GuardLines(rs, insert) + GuardBlock(c, insert)
  {
    var b := seq(|rs + [c]|, k requires 0 <= k < |rs + [c]| => GuardBlock((rs + [c])[k], insert));
    assert b[..|rs|] == seq(|rs|, k requires 0 <= k < |rs| => GuardBlock(rs[k], insert));
  }

  /** Walking all columns and skipping the others is walking the required non-key columns. */
  lemma {:induction false} GuardBlocksFilter(cols: seq<Column>, pks: seq<string>, insert: bool)
    ensures Flatten(GuardBlocks(cols, pks, insert)) == GuardLines(RequiredNonKeyColumns(cols, pks), insert)
    decreases |cols|
  {
    if |cols| > 0 {
      var cols' := cols[..|cols| - 1];
      var c := cols[|cols| - 1];
      var b := GuardBlocks(cols, pks, insert);
      assert b[..|cols| - 1] == GuardBlocks(cols', pks, insert);
      assert Flatten(b) == Flatten(GuardBlocks(cols', pks, insert)) + b[|cols| - 1];
      GuardBlocksFilter(cols', pks, insert);
      var rs' := RequiredNonKeyColumns(cols', pks);
      if RequiredNonKey(c, pks) {
        assert RequiredNonKeyColumns(cols, pks) == rs' + [c];
        GuardLinesSnoc(rs', c, insert);
      } else {
        assert RequiredNonKeyColumns(cols, pks) == rs' + [];
        assert b[|cols| - 1] == [];
        assert Flatten(b) == Flatten(GuardBlocks(cols', pks, insert));
        assert rs' + [] == rs';
      }
    }
  }

  lemma {:induction false} FlattenTriplesLength<T>(blocks: seq<seq<T>>)
    requires forall k :: 0 <= k < |blocks| ==> |blocks[k]| == 3
    ensures |Flatten(blocks)| == 3 * |blocks|
    decreases |blocks|
  {
    if |blocks| > 0 {
      FlattenTriplesLength(blocks[..|blocks| - 1]);
    }
  }

  lemma {:induction false} FlattenTripleAt<T>(blocks: seq<seq<T>>, k: nat, j: nat)
    requires forall m :: 0 <= m < |blocks| ==> |blocks[m]| == 3
    requires k < |blocks| && j < 3
    ensures |Flatten(blocks)| == 3 * |blocks|
    ensures Flatten(blocks)[3 * k + j] == blocks[k][j]
    decreases |blocks|
  {
    FlattenTriplesLength(blocks);
    var init := blocks[..|blocks| - 1];
    FlattenTriplesLength(init);
    if k < |blocks| - 1 {
      FlattenTripleAt(init, k, j);
    }
  }

  /** The lines of guard k in a walk over the required non-key columns. */
  lemma GuardLinesAt(rs: seq<Column>, insert: bool, k: nat)
    requires k < |rs|
    ensures |GuardLines(rs, insert)| == 3 * |rs|
    ensures GuardLines(rs, insert)[3 * k] == GuardBlock(rs[k], insert)[0]
    ensures GuardLines(rs, insert)[3 * k + 1] == GuardBlock(rs[k], insert)[1]
    ensures GuardLines(rs, insert)[3 * k + 2] == GuardBlock(rs[k], insert)[2]
  {
    GuardLineAt(rs, insert, k, 0);
    GuardLineAt(rs, insert, k, 1);
    GuardLineAt(rs, insert, k, 2);
  }

  lemma GuardLineAt(rs: seq<Column>, insert: bool, k: nat, j: nat)
    requires k < |rs| && j < 3
    ensures |GuardLines(rs, insert)| == 3 * |rs|
    ensures GuardLines(rs, insert)[3 * k + j] == GuardBlock(rs[k], insert)[j]
  {
    var b := seq(|rs|, m requires 0 <= m < |rs| => GuardBlock(rs[m], insert));
    FlattenTripleAt(b, k, j);
  }

  /** Both branches walk the required non-key columns in table order with the same guard: the
      update branch adds each to the SET list, the insert branch rejects its absence. */
  lemma SaveOptionsGuards(cols: seq<Column>, pks: seq<string>)
    ensures |Flatten(GuardBlocks(cols, pks, false))| == 3 * |RequiredNonKeyColumns(cols, pks)|
    ensures |Flatten(GuardBlocks(cols, pks, true))| == 3 * |RequiredNonKeyColumns(cols, pks)|
    ensures forall k :: 0 <= k < |RequiredNonKeyColumns(cols, pks)| ==>
      var c := RequiredNonKeyColumns(cols, pks)[k];
      var g := if IsNumeric(c) then "(data." + c.name + " >= 0)" else "data." + c.name;
      var upd := Flatten(GuardBlocks(cols, pks, false));
      var ins := Flatten(GuardBlocks(cols, pks, true));
      && upd[3 * k] == "            if (" + g + "){"
      && upd[3 * k + 1] == "                functUpd('" + c.name + "');"
      && ins[3 * k] == "            if (!" + g + ") {"
      && ins[3 * k + 1] == "                throw new ErBadRequest('" + Capitalize(c.name) + " is mandatory');"
      && upd[3 * k + 2] == "            }" && ins[3 * k + 2] == "            }"
  {
    var rs := RequiredNonKeyColumns(cols, pks);
    GuardBlocksFilter(cols, pks, false);
    GuardBlocksFilter(cols, pks, true);
    var b := seq(|rs|, m requires 0 <= m < |rs| => GuardBlock(rs[m], false));
    FlattenTriplesLength(b);
    var b' := seq(|rs|, m requires 0 <= m < |rs| => GuardBlock(rs[m], true));
    FlattenTriplesLength(b');
    forall k | 0 <= k < |rs|
      ensures var c := rs[k];
        var g := if IsNumeric(c) then "(data." + c.name + " >= 0)" else "data." + c.name;
        && GuardLines(rs, false)[3 * k] == "            if (" + g + "){"
        && GuardLines(rs, false)[3 * k + 1] == "                functUpd('" + c.name + "');"
        && GuardLines(rs, true)[3 * k] == "            if (!" + g + ") {"
        && GuardLines(rs, true)[3 * k + 1] == "                throw new ErBadRequest('" + Capitalize(c.name) + " is mandatory');"
        && GuardLines(rs, false)[3 * k + 2] == "            }" && GuardLines(rs, true)[3 * k + 2] == "            }"
    {
      IsFilledData(rs[k]);
      GuardLinesAt(rs, false, k);
      GuardLinesAt(rs, true, k);
    }
  }

  /** The values array and the INSERT list are built from the same columns: entry k reads the
      insert column k, the comma pattern is the same, and there are as many entries as
      placeholders. */
  lemma ValuesMatchInsertColumns(t: Table)
    ensures var ci := NonKeyColumns(t.columns, t.primaryKeys);
      var vals := ValueLines(ci);
      && |vals| == |ci|
      && CountChar(Placeholders(|ci|, ", "), '?') == |vals|
      && forall k :: 0 <= k < |ci| ==>
        && vals[k] == "                data." + ci[k].name + ValueRest(ci[k]) + Comma(k, |ci|)
        && ("                data." + ci[k].name) <= vals[k]
  {
    var ci := NonKeyColumns(t.columns, t.primaryKeys);
    assert CountChar(", ", '?') == 0 by {
      assert ", "[..1] == ",";
      assert ","[..0] == "";
    }
    PlaceholderCount(|ci|, ", ");
  }

  method EmitDateBlocks(cols: seq<Column>) returns (lines: seq<string>)
    ensures lines == Flatten(DateBlocks(cols))
  {
    lines := [];
    var i := 0;
    while i < |cols|
      invariant 0 <= i <= |cols|
      invariant lines == Flatten(DateBlocks(cols)[..i])
    {
      FlattenSnoc(DateBlocks(cols), i);
      var c := cols[i];
      if c.dataType == "datetime" {
        lines := lines + ["        if (data." + c.name + ") {"];
        lines := lines + ["            if (typeof data." + c.name + " === 'string') {"];
        lines := lines + ["                data." + c.name + " = new Date(data." + c.name + ");"];
        lines := lines + ["            }"];
        lines := lines + ["        }"];
      }
      i := i + 1;
    }
    assert DateBlocks(cols)[..i] == DateBlocks(cols);
  }

  method EmitGuards(cols: seq<Column>, pks: seq<string>, insert: bool) returns (lines: seq<string>)
    ensures lines == Flatten(GuardBlocks(cols, pks, insert))
  {
    lines := [];
    var i := 0;
    while i < |cols|
      invariant 0 <= i <= |cols|
      invariant lines == Flatten(GuardBlocks(cols, pks, insert)[..i])
    {
      FlattenSnoc(GuardBlocks(cols, pks, insert), i);
      var c := cols[i];
      if c.required {
        if c.name !in pks {
          if insert {
            lines := lines + ["            if (!" + IsFilled(c, "data") + ") {"];
            lines := lines + ["                throw new ErBadRequest('" + Capitalize(c.name) + " is mandatory');"];
          } else {
            lines := lines + ["            if (" + IsFilled(c, "data") + "){"];
            lines := lines + ["                functUpd('" + c.name + "');"];
          }
          lines := lines + ["            }"];
        }
      }
      i := i + 1;
    }
    assert GuardBlocks(cols, pks, insert)[..i] == GuardBlocks(cols, pks, insert);
  }

  method EmitValues(colsInsert: seq<Column>) returns (lines: seq<string>)
    ensures lines == ValueLines(colsInsert)
  {
    lines := [];
    ghost var vl := ValueLines(colsInsert);
    var i := 0;
    while i < |colsInsert|
      invariant 0 <= i <= |colsInsert|
      invariant lines == vl[..i]
    {
      assert vl[..i + 1] == vl[..i] + [vl[i]];
      var c := colsInsert[i];
      var comma := Comma(i, |colsInsert|);
      if c.dataType == "varchar" {
        var line := "                data." + c.name + " ? data." + c.name + ".substr(0, "
                    + NullableNumber(c.maxLength) + ") : null" + comma;
        assert line == vl[i];
        lines := lines + [line];
      } else {
        assert "                data." + c.name + comma == vl[i];
        lines := lines + ["                data." + c.name + comma];
      }
      i := i + 1;
    }
    assert vl[..i] == vl;
  }

  /** The source: four walks (datetime conversion, update guards, insert guards, values). */
  method GenerateGetSaveOptions(t: Table, colsInsert: seq<Column>, inc: bool) returns (lines: seq<string>)
    ensures lines == SaveOptionsLines(t, colsInsert, inc)
  {
    var dates := EmitDateBlocks(t.columns);
    var upd := EmitGuards(t.columns, t.primaryKeys, false);
    var ins := EmitGuards(t.columns, t.primaryKeys, true);
    var vals := EmitValues(colsInsert);
    lines := SaveOptionsHead(inc) + dates + UpdatePrelude + upd + UpdateEnd(t) + ins + ValuesHead(t)
      + vals + SaveOptionsTail;
  }

  // ---------------------------------------------------------------------
  // generateGetQuery
  // ---------------------------------------------------------------------

  function GetQueryHead(t: Table): seq<string> {
    ["    static async getQuery(filterSQL, values, conn, offsetRows = 0, limitRows = 20, sortOrder = null) {",
     "        const sqlValues = [...values, offsetRows, limitRows + offsetRows];",
     "        let sql = SQL_SEL_" + Upper(t.name) + ".replace(/*filter*/, filterSQL); ",
     "        if (sortOrder) ",
     "            sql = sql.replace(/*order*/, sortOrder + ','); ",
     "        const rows = await conn.query(sql, sqlValues);",
     "        const metadata = {",
     "            total: 0,",
     "            count: 0,",
     "            limit: limitRows,",
     "            offset: offsetRows",
     "        };",
     "        const ret = {",
     "            metadata: metadata,",
     "            results: []",
     "        }",
     "        if (rows.length > 0) {",
     "            metadata.count = rows.length;",
     "            metadata.total = rows[0].tot_tbl;",
     "            ret.results = rows.map((itm) => ({"]
  }

  /** The result field of entry k: a key column becomes `id`, a joined entry an object named after
      its entity with the id and label the SELECT produced, any other column itself. */
  function QueryFieldBlock(pks: seq<string>, cs: seq<SelCol>, k: nat): (r: seq<string>)
    requires k < |cs|
    ensures |r| == if cs[k].name !in pks && cs[k].fk.Some? then 4 else 1
  {
    var e := cs[k];
    var commaEnd := CommaEnd(k, |cs|);
    if e.name in pks then
      ["                id: itm." + e.name + commaEnd]
    else if e.fk.Some? then
      var ent := e.fk.value.columnEntity;
      ["                " + ent + ": {",
       "                    id: itm." + ent + "_id, ",
       "                    description: itm." + ent + "_description ",
       "                }" + commaEnd]
    else
      ["                " + e.name + ": itm." + e.name + commaEnd]
  }

  function QueryFieldBlocks(pks: seq<string>, cs: seq<SelCol>): (r: seq<seq<string>>)
    ensures |r| == |cs|
  {
    seq(|cs|, k requires 0 <= k < |cs| => QueryFieldBlock(pks, cs, k))
  }

  const GetQueryTail: seq<string> :=
    ["            }));",
     "        }",
     "        return ret;",
     "    }",
     " "]

  function GetQueryLines(t: Table, cs: seq<SelCol>): seq<string> {
    GetQueryHead(t) + Flatten(QueryFieldBlocks(t.primaryKeys, cs)) + GetQueryTail
  }

  method EmitQueryFields(pks: seq<string>, cs: seq<SelCol>) returns (lines: seq<string>)
    ensures lines == Flatten(QueryFieldBlocks(pks, cs))
  {
    lines := [];
    var i := 0;
    while i < |cs|
      invariant 0 <= i <= |cs|
      invariant lines == Flatten(QueryFieldBlocks(pks, cs)[..i])
    {
      FlattenSnoc(QueryFieldBlocks(pks, cs), i);
      var e := cs[i];
      var commaEnd := if i == |cs| - 1 then "" else ",";
      if e.name in pks {
        lines := lines + ["                id: itm." + e.name + commaEnd];
      } else if e.fk.Some? {
        var ent := e.fk.value.columnEntity;
        lines := lines + ["                " + ent + ": {"];
        lines := lines + ["                    id: itm." + ent + "_id, "];
        lines := lines + ["                    description: itm." + ent + "_description "];
        lines := lines + ["                }" + commaEnd];
      } else {
        lines := lines + ["                " + e.name + ": itm." + e.name + commaEnd];
      }
      i := i + 1;
    }
    assert QueryFieldBlocks(pks, cs)[..i] == QueryFieldBlocks(pks, cs);
  }

  method GenerateGetQuery(t: Table, colsSelect: seq<SelCol>) returns (lines: seq<string>)
    ensures lines == GetQueryLines(t, colsSelect)
  {
    var fields := EmitQueryFields(t.primaryKeys, colsSelect);
    lines := GetQueryHead(t) + fields + GetQueryTail;
  }

  /** The `itm` fields the result object reads for entry k, as its lines name them. */
  function ReadColumns(pks: seq<string>, cs: seq<SelCol>, k: nat): (r: seq<string>)
    requires k < |cs|
    ensures |r| == if cs[k].name !in pks && cs[k].fk.Some? then 2 else 1
    ensures cs[k].name in pks ==>
      QueryFieldBlock(pks, cs, k)[0] == "                id: itm." + r[0] + CommaEnd(k, |cs|)
    ensures cs[k].name !in pks && cs[k].fk.Some? ==>
      && QueryFieldBlock(pks, cs, k)[1] == "                    id: itm." + r[0] + ", "
      && QueryFieldBlock(pks, cs, k)[2] == "                    description: itm." + r[1] + " "
    ensures cs[k].name !in pks && cs[k].fk.None? ==>
      QueryFieldBlock(pks, cs, k)[0] == "                " + cs[k].name + ": itm." + r[0] + CommaEnd(k, |cs|)
  {
    var e := cs[k];
    if e.name in pks then [e.name]
    else if e.fk.Some? then [e.fk.value.columnEntity + "_id", e.fk.value.columnEntity + "_description"]
    else [e.name]
  }

  /** For every entry that is not a primary key, getQuery reads back exactly the result columns
      the SELECT projects for it, in the same order. */
  lemma QueryReadsProjection(pks: seq<string>, cs: seq<SelCol>, k: nat)
    requires k < |cs| && cs[k].name !in pks
    ensures ReadColumns(pks, cs, k) == ProjectedColumns(cs, k)
  {
  }

  /** A primary-key column that also carries a foreign key is read back as `itm.<name>`, since
      getQuery tests the keys first, while the SELECT, which tests the foreign key first, projects
      it only as `<entity>_id` and `<entity>_description`. */
  lemma KeyWithForeignKeyReadsItsName(t: Table, k: nat)
    requires k < |t.columns| && t.columns[k].name in t.primaryKeys
    requires FkIndex(t.foreignKeys, t.columns[k].name) >= 0
    ensures var cs := TableSelColumns(t);
      var ent := t.foreignKeys[FkIndex(t.foreignKeys, t.columns[k].name)].refTable;
      && ReadColumns(t.primaryKeys, cs, k) == [t.columns[k].name]
      && ProjectedColumns(cs, k) == [ent + "_id", ent + "_description"]
  {
    SelColumnsSpec(t.columns, t.foreignKeys);
  }

  /** Concretely: a key `id` that references `parent` is read as `itm.id`, which the SELECT does
      not produce, so the generated result's `id` is undefined. */
  lemma KeyWithForeignKeyIsUndefined()
    ensures var t := Table("node", [Column("id", true, "int", None)], ["id"], [Fk("id", "parent", "id", None)]);
      var cs := TableSelColumns(t);
      && |cs| == 1
      && ReadColumns(t.primaryKeys, cs, 0) == ["id"]
      && ProjectedColumns(cs, 0) == ["parent_id", "parent_description"]
  {
    var t := Table("node", [Column("id", true, "int", None)], ["id"], [Fk("id", "parent", "id", None)]);
    assert FkIndex(t.foreignKeys, "id") == 0;
    KeyWithForeignKeyReadsItsName(t, 0);
    var cs := TableSelColumns(t);
    assert |cs| == 1;
    assert ReadColumns(t.primaryKeys, cs, 0) == ["id"];
    assert "parent" + "_id" == "parent_id";
    assert "parent" + "_description" == "parent_description";
  }

  /** Two non-key columns that reference the same table produce two result fields of the same
      name, so the later one overwrites the earlier one in the generated object literal. */
  lemma QueryFieldsCollide(t: Table, i: nat, j: nat)
    requires i < j < |t.columns|
    requires t.columns[i].name !in t.primaryKeys && t.columns[j].name !in t.primaryKeys
    requires var cs := TableSelColumns(t);
      cs[i].fk.Some? && cs[j].fk.Some? && cs[i].fk.value.table == cs[j].fk.value.table
    ensures var cs := TableSelColumns(t);
      QueryFieldBlock(t.primaryKeys, cs, i)[0] == QueryFieldBlock(t.primaryKeys, cs, j)[0]
  {
    SelColumnsSpec(t.columns, t.foreignKeys);
  }

  // ---------------------------------------------------------------------
  // getByIdNT, getById, saveNT, save
  // ---------------------------------------------------------------------

  /** `${table.primaryKeys[0]}`, undefined for a table without keys. */
  function FirstKeyText(pks: seq<string>): string {
    if |pks| > 0 then pks[0] else "undefined"
  }

  function GetByIdNTLines(t: Table, inc: bool): seq<string> {
    ["    static async getByIdNT(id" + IdBusinessParam(inc) + ", conn) {",
     "        const ret = await this.getQuery('bas." + FirstKeyText(t.primaryKeys) + " = ? "
       + (if inc then "and bas.id_business = ?" else "") + "', [id" + IdBusinessParam(inc) + "], conn);",
     "        if (ret.results.length > 0) {",
     "            return ret.results[0];",
     "        }",
     "        throw new ErNotFound('Not found with this id!');",
     "    }",
     " "]
  }

  /** getById takes the business id whatever the configuration says. */
  const GetByIdLines: seq<string> :=
    ["    static async getById(id, idBusiness, conn) {",
     "        try {",
     "            const ret = await this.getByIdNT(id, idBusiness, conn);",
     "            return ret;",
     "        }",
     "        finally {",
     "            await conn.close();",
     "        }",
     "    }",
     " "]

  function SaveNTLines(inc: bool): seq<string> {
    var idb := IdBusinessParam(inc);
    ["    static async saveNT(data" + idb + " , conn) {",
     "        const options = this.getSaveOptions(data" + idb + "); ",
     "        const rows = await conn.query(options.sql, options.values); ",
     "        if (data.id) {",
     "            if (!(rows.affectedRows > 0)) {",
     "                throw new ErNotFound('Data not found with this Id');",
     "            }",
     "        } else {",
     "            data.id = rows.insertId;",
     "        }",
     "        return data;",
     "    }",
     " "]
  }

  function SaveLines(inc: bool): seq<string> {
    var idb := IdBusinessParam(inc);
    ["    static async save(data" + idb + ", conn) {",
     "        try {",
     "            await conn.beginTransaction()",
     "            const ret = await this.saveNT(data" + idb + ", conn);",
     "            await conn.commit()",
     "            return ret;",
     "        }",
     "        catch (err) {",
     "            await conn.rollback();",
     "            throw err;",
     "        }",
     "        finally {",
     "            await conn.close();",
     "        }",
     "    }",
     " "]
  }

  /** As written, getById always takes the business id and passes it on, while getByIdNT
      takes (id, conn) when the business id is not included: the call has one argument too many. */
  lemma GetByIdCallDisagreesWithoutBusinessId(t: Table)
    ensures GetByIdNTLines(t, false)[0] == "    static async getByIdNT(id, conn) {"
    ensures GetByIdLines[0] == "    static async getById(id, idBusiness, conn) {"
    ensures GetByIdLines[2] == "            const ret = await this.getByIdNT(id, idBusiness, conn);"
  {
  }

  /** saveNT is always written with the business id: the driver passes the table where the
      flag is expected, and a table is always truthy. */
  lemma SaveNTTakesBusinessId()
    ensures SaveNTLines(true)[0] == "    static async saveNT(data, idBusiness , conn) {"
  {
  }

  /** saveNT, written with the flag set as the driver does, passes the business id to
      getSaveOptions. */
  lemma SaveNTPassesBusinessIdToGetSaveOptions()
    ensures SaveNTLines(true)[1] == "        const options = this.getSaveOptions(data, idBusiness); "
  {
  }

  /** Without the business id, getSaveOptions declares only `data`, so saveNT's call passes one
      argument too many. */
  lemma GetSaveOptionsWithoutBusinessIdTakesData()
    ensures SaveOptionsHead(false)[0] == "    static getSaveOptions(data ) {"
  {
  }

  /** Without the business id, save calls saveNT with two arguments, one short of the three
      that saveNT declares. */
  lemma SaveCallsSaveNTWithoutBusinessId()
    ensures SaveLines(false)[3] == "            const ret = await this.saveNT(data, conn);"
  {
  }

  /** find takes the business id whether or not it filters by it. */
  lemma FindAlwaysTakesBusinessId()
    ensures FindHead(false)[0] == "    static async find(query, idBusiness, conn) {"
  {
  }

  // ---------------------------------------------------------------------
  // generateFind
  // ---------------------------------------------------------------------

  function FindHead(inc: bool): seq<string> {
    ["    static async find(query, idBusiness, conn) {",
     "        try {",
     "            const limitRows = parseInt(query.limit) > 0 ? parseInt(query.limit) : 20;",
     "            const offsetRows = parseInt(query.offset) >= 0 ? parseInt(query.offset) : 0;"]
      + (if inc then
           ["            let sqlFilter = ['and bas.id_business = ?'];",
            "            const values = [idBusiness];"]
         else
           ["            let sqlFilter = [];",
            "            const values = [];"])
  }

  /** The query-string field that filters an entry: the entity name of a joined entry. */
  function QueryField(e: SelCol): string {
    if e.fk.Some? then e.fk.value.columnEntity else e.name
  }

  /** Label-like fields are matched with `like`, with spaces turned into wildcards. */
  predicate IsLabelField(qf: string) {
    IndexOf(qf, "description") >= 0
  }

  function FilterBlock(pks: seq<string>, e: SelCol): (r: seq<string>)
    ensures |r| == if e.name in pks then 0 else 4
  {
    if e.name in pks then []
    else
      var qf := QueryField(e);
      ["            if (query." + qf + ") {"]
      + (if IsLabelField(qf) then
           ["                sqlFilter.push('and bas." + e.name + " like  ?')",
            "                values.push('%' + query." + qf + ".replaceAll(' ', '%') + '%');"]
         else
           ["                sqlFilter.push('and bas." + e.name + " = ?')",
            "                values.push(query." + qf + ");"])
      + ["            }"]
  }

  function FilterBlocks(pks: seq<string>, cs: seq<SelCol>): (r: seq<seq<string>>)
    ensures |r| == |cs|
  {
    seq(|cs|, k requires 0 <= k < |cs| => FilterBlock(pks, cs[k]))
  }

  const FindTail: seq<string> :=
    ["            const ret = await this.getQuery(sqlFilter.join(' '), values, conn, offsetRows, limitRows);",
     "            return ret;",
     "        }",
     "        finally {",
     "            await conn.close();",
     "        }",
     "    }",
     " "]

  function FindLines(t: Table, cs: seq<SelCol>, inc: bool): seq<string> {
    FindHead(inc) + Flatten(FilterBlocks(t.primaryKeys, cs)) + FindTail
  }

  /** Entries that are not primary keys. */
  function NonKeyCount(pks: seq<string>, cs: seq<SelCol>): (r: nat)
    ensures r <= |cs|
    decreases |cs|
  {
    if |cs| == 0 then 0 else NonKeyCount(pks, cs[..|cs| - 1]) + (if cs[|cs| - 1].name in pks then 0 else 1)
  }

  /** Every non-key entry gets exactly one filter of four lines, which pushes one condition and
      one value; a key entry gets none. */
  lemma {:induction false} FilterLinesLength(pks: seq<string>, cs: seq<SelCol>)
    ensures |Flatten(FilterBlocks(pks, cs))| == 4 * NonKeyCount(pks, cs)
    decreases |cs|
  {
    if |cs| > 0 {
      var cs' := cs[..|cs| - 1];
      assert FilterBlocks(pks, cs)[..|cs| - 1] == FilterBlocks(pks, cs');
      FilterLinesLength(pks, cs');
    }
  }

  /** A filter matches with `like` exactly when its query field mentions description, and a joined
      entry is filtered through its entity name while the condition is on its own column. */
  lemma FilterBlockSpec(pks: seq<string>, e: SelCol)
    requires e.name !in pks
    ensures var b := FilterBlock(pks, e);
      && b[0] == "            if (query." + (if e.fk.Some? then e.fk.value.columnEntity else e.name) + ") {"
      && (b[1] == "                sqlFilter.push('and bas." + e.name + " like  ?')"
          <==> IndexOf(QueryField(e), "description") >= 0)
      && b[3] == "            }"
  {
    var b := FilterBlock(pks, e);
    var qf := QueryField(e);
    if !IsLabelField(qf) {
      var like := "                sqlFilter.push('and bas." + e.name + " like  ?')";
      var eq := "                sqlFilter.push('and bas." + e.name + " = ?')";
      var k := |"                sqlFilter.push('and bas." + e.name|;
      assert like[k + 1] == 'l' && eq[k + 1] == '=';
      assert b[1] == eq;
    }
  }

  /** The filter the source writes for one entry. */
  method EmitFilter(pks: seq<string>, e: SelCol) returns (lines: seq<string>)
    ensures lines == FilterBlock(pks, e)
  {
    lines := [];
    if e.name !in pks {
      var queryField := e.name;
      if e.fk.Some? {
        queryField := e.fk.value.columnEntity;
      }
      lines := lines + ["            if (query." + queryField + ") {"];
      if IndexOf(queryField, "description") >= 0 {
        lines := lines + ["                sqlFilter.push('and bas." + e.name + " like  ?')"];
        lines := lines + ["                values.push('%' + query." + queryField + ".replaceAll(' ', '%') + '%');"];
      } else {
        lines := lines + ["                sqlFilter.push('and bas." + e.name + " = ?')"];
        lines := lines + ["                values.push(query." + queryField + ");"];
      }
      lines := lines + ["            }"];
    }
  }

  method EmitFilters(pks: seq<string>, cs: seq<SelCol>) returns (lines: seq<string>)
    ensures lines == Flatten(FilterBlocks(pks, cs))
  {
    lines := [];
    var i := 0;
    while i < |cs|
      invariant 0 <= i <= |cs|
      invariant lines == Flatten(FilterBlocks(pks, cs)[..i])
    {
      FlattenSnoc(FilterBlocks(pks, cs), i);
      var block := EmitFilter(pks, cs[i]);
      lines := lines + block;
      i := i + 1;
    }
    assert FilterBlocks(pks, cs)[..i] == FilterBlocks(pks, cs);
  }

  method GenerateFind(t: Table, colsSelect: seq<SelCol>, inc: bool) returns (lines: seq<string>)
    ensures lines == FindLines(t, colsSelect, inc)
  {
    var filters := EmitFilters(t.primaryKeys, colsSelect);
    lines := FindHead(inc) + filters + FindTail;
  }

  // ---------------------------------------------------------------------
  // The request adapters
  // ---------------------------------------------------------------------

  function ReqBusinessArg(inc: bool): string {
    if inc then ", req.id_business" else ""
  }

  /** The first line of a request adapter: a static method taking (req, res, conn). */
  function AdapterHeader(name: string): string {
    "    static " + name + "(req, res, conn) {"
  }

  function Adapter(name: string, call: string): (r: seq<string>)
    ensures |r| == 6 && r[0] == AdapterHeader(name)
  {
    [AdapterHeader(name),
     call,
     "        .then((ret) => res.status(200).json(ret))",
     "        .catch((err) => UtilsLib.resError(err, res));",
     "    }",
     " "]
  }

  function SaveReqLines(inc: bool): seq<string> {
    Adapter("saveReq", "        this.save(req.body" + ReqBusinessArg(inc) + ", conn)")
  }

  function GetByIdReqLines(inc: bool): seq<string> {
    Adapter("getByIdReq", "        this.getById(req.params.id" + ReqBusinessArg(inc) + ", conn)")
  }

  function FindReqLines(inc: bool): seq<string> {
    Adapter("findReq", "        this.find(req.query" + ReqBusinessArg(inc) + ", conn)")
  }

  /** Without the business id, getByIdReq calls the three-parameter getById with two arguments. */
  lemma GetByIdReqCallsGetByIdWithoutBusinessId()
    ensures GetByIdReqLines(false)[1] == "        this.getById(req.params.id, conn)"
  {
  }

  /** Without the business id, findReq calls the three-parameter find with two arguments. */
  lemma FindReqCallsFindWithoutBusinessId()
    ensures FindReqLines(false)[1] == "        this.find(req.query, conn)"
  {
  }

  /** The three request adapters, in the order the class defines them. */
  function RequestAdapters(inc: bool): seq<string> {
    SaveReqLines(inc) + GetByIdReqLines(inc) + FindReqLines(inc)
  }
}
