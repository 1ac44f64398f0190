// Column planning: which columns an INSERT names, the projection list of the
// SELECT with its join aliases, and the column the paged query orders by.

module Planner {
  import opened Wrappers
  import opened JsText
  import opened Schema

  // ---------------------------------------------------------------------
  // mountInsertSQL: the columns an INSERT names
  // ---------------------------------------------------------------------

  /** The columns whose names are not primary keys, in table order. */
  function NonKeyColumns(cols: seq<Column>, pks: seq<string>): (r: seq<Column>)
    ensures |r| <= |cols|
    ensures forall c :: c in r <==> c in cols && c.name !in pks
    decreases |cols|
  {
    if |cols| == 0 then []
    else
      var c := cols[|cols| - 1];
      NonKeyColumns(cols[..|cols| - 1], pks) + (if c.name in pks then [] else [c])
  }

  /** Filtering distributes over concatenation, so the kept columns keep their relative order. */
  lemma {:induction false} NonKeyColumnsAppend(a: seq<Column>, b: seq<Column>, pks: seq<string>)
    ensures NonKeyColumns(a + b, pks) == NonKeyColumns(a, pks) + NonKeyColumns(b, pks)
    decreases |b|
  {
    if |b| == 0 {
      assert a + b == a;
    } else {
      var b' := b[..|b| - 1];
      assert (a + b)[..|a + b| - 1] == a + b';
      NonKeyColumnsAppend(a, b', pks);
    }
  }

  lemma NonKeyColumnsStep(cols: seq<Column>, i: nat, pks: seq<string>)
    requires i < |cols|
    ensures NonKeyColumns(cols[..i + 1], pks)
      == NonKeyColumns(cols[..i], pks) + (if cols[i].name in pks then [] else [cols[i]])
  {
    assert cols[..i + 1][..i] == cols[..i];
  }

  /** The method builds the list with a loop, as the source pushes into `colsInsert`. */
  method InsertColumns(t: Table) returns (colsInsert: seq<Column>)
    ensures colsInsert == NonKeyColumns(t.columns, t.primaryKeys)
  {
    colsInsert := [];
    var i := 0;
    while i < |t.columns|
      invariant 0 <= i <= |t.columns|
      invariant colsInsert == NonKeyColumns(t.columns[..i], t.primaryKeys)
    {
      var c := t.columns[i];
      NonKeyColumnsStep(t.columns, i, t.primaryKeys);
      if c.name !in t.primaryKeys {
        colsInsert := colsInsert + [c];
      }
      i := i + 1;
    }
    assert t.columns[..i] == t.columns;
  }

  // ---------------------------------------------------------------------
  // getSelColumns: the projection list
  // ---------------------------------------------------------------------

  /** How an entry reaches the referenced table: its key column, label column, table,
      the entity name used for the generated fields, and the join alias. */
  datatype FkProj = FkProj(
    column: string,
    descriptionColumn: Option<string>,
    table: string,
    columnEntity: string,
    alias: string)

  /** One entry of the projection list. */
  datatype SelCol = SelCol(name: string, fk: Option<FkProj>)

  /** The index of the first foreign key declared on the column called name, or -1. */
  function FkIndex(fks: seq<Fk>, name: string): (r: int)
    ensures -1 <= r < |fks|
    ensures r == -1 <==> forall k :: 0 <= k < |fks| ==> fks[k].column != name
    ensures r >= 0 ==> fks[r].column == name && forall k :: 0 <= k < r ==> fks[k].column != name
  {
    FindIndex(fks, (f: Fk) => f.column == name)
  }

  /** The first three characters of a table name (`substr(0, 3)`). */
  function AliasPrefix(refTable: string): (r: string)
    ensures r <= refTable
    ensures |r| == if |refTable| < 3 then |refTable| else 3
  {
    if |refTable| <= 3 then refTable else refTable[..3]
  }

  predicate AliasStarts(e: SelCol, p: string) {
    e.fk.Some? && IndexOf(e.fk.value.alias, p) == 0
  }

  /** The `cntAlias` reduce: earlier entries whose alias starts with p. */
  function CountAliasPrefix(cs: seq<SelCol>, p: string): (r: nat)
    ensures r <= |cs|
    decreases |cs|
  {
    if |cs| == 0 then 0
    else CountAliasPrefix(cs[..|cs| - 1], p) + (if AliasStarts(cs[|cs| - 1], p) then 1 else 0)
  }

  /** The `cntTable` reduce: earlier entries whose referenced table equals `target`.
      The source passes a field that is never set, i.e. undefined, which no table name equals. */
  function CountSameTable(cs: seq<SelCol>, target: Option<string>): (r: nat)
    ensures r <= |cs|
    ensures target.None? ==> r == 0
    decreases |cs|
  {
    if |cs| == 0 then 0
    else
      var e := cs[|cs| - 1];
      CountSameTable(cs[..|cs| - 1], target) + (if e.fk.Some? && Some(e.fk.value.table) == target then 1 else 0)
  }

  /** `currAlias + cntAlias` when the count is positive. */
  function AliasFor(p: string, k: nat): string {
    if k > 0 then p + NatToString(k) else p
  }

  /** The entry for column c, given the entries built before it. */
  function SelEntry(prev: seq<SelCol>, c: Column, fks: seq<Fk>): SelCol {
    var i := FkIndex(fks, c.name);
    if i < 0 then SelCol(c.name, None)
    else
      var f := fks[i];
      var p := AliasPrefix(f.refTable);
      SelCol(c.name, Some(FkProj(f.refColumn, f.refDescription, f.refTable, f.refTable,
                                 AliasFor(p, CountAliasPrefix(prev, p)))))
  }

  function SelColumns(cols: seq<Column>, fks: seq<Fk>): (r: seq<SelCol>)
    ensures |r| == |cols|
    decreases |cols|
  {
    if |cols| == 0 then []
    else
      var prev := SelColumns(cols[..|cols| - 1], fks);
      prev + [SelEntry(prev, cols[|cols| - 1], fks)]
  }

  /** The projection list of a table. */
  function TableSelColumns(t: Table): seq<SelCol> {
    SelColumns(t.columns, t.foreignKeys)
  }

  /** The `cntTable` reduce as the loop it performs. */
  method CountTableRefs(colsSelect: seq<SelCol>, target: Option<string>) returns (cnt: nat)
    ensures cnt == CountSameTable(colsSelect, target)
  {
    cnt := 0;
    var j := 0;
    while j < |colsSelect|
      invariant 0 <= j <= |colsSelect|
      invariant cnt == CountSameTable(colsSelect[..j], target)
    {
      var curr := colsSelect[j];
      assert colsSelect[..j + 1][..j] == colsSelect[..j];
      if curr.fk.Some? && Some(curr.fk.value.table) == target {
        cnt := cnt + 1;
      }
      j := j + 1;
    }
    assert colsSelect[..j] == colsSelect;
  }

  /** The `cntAlias` reduce as the loop it performs. */
  method CountAliasRefs(colsSelect: seq<SelCol>, currAlias: string) returns (cnt: nat)
    ensures cnt == CountAliasPrefix(colsSelect, currAlias)
  {
    cnt := 0;
    var j := 0;
    while j < |colsSelect|
      invariant 0 <= j <= |colsSelect|
      invariant cnt == CountAliasPrefix(colsSelect[..j], currAlias)
    {
      var curr := colsSelect[j];
      assert colsSelect[..j + 1][..j] == colsSelect[..j];
      if curr.fk.Some? && IndexOf(curr.fk.value.alias, currAlias) == 0 {
        cnt := cnt + 1;
      }
      j := j + 1;
    }
    assert colsSelect[..j] == colsSelect;
  }

  /** The loop of the source: one entry per column, pushed in column order. */
  method GetSelColumns(t: Table) returns (colsSelect: seq<SelCol>)
    ensures colsSelect == TableSelColumns(t)
  {
    var cols := t.columns;
    var fks := t.foreignKeys;
    colsSelect := [];
    var i := 0;
    while i < |cols|
      invariant 0 <= i <= |cols|
      invariant colsSelect == SelColumns(cols[..i], fks)
    {
      var c := cols[i];
      assert cols[..i + 1][..i] == cols[..i];
      var fi := FkIndex(fks, c.name);
      var entry := SelCol(c.name, None);
      if fi < 0 {
        assert entry == SelEntry(colsSelect, c, fks);
      } else {
        var f := fks[fi];
        // `itmFk.table` is not a field of the foreign-key record: undefined.
        var cntTable := CountTableRefs(colsSelect, None);
        if cntTable > 0 {
          assert false;
        }
        var currAlias := AliasPrefix(f.refTable);
        var cntAlias := CountAliasRefs(colsSelect, currAlias);
        var alias := currAlias;
        if cntAlias > 0 {
          alias := currAlias + NatToString(cntAlias);
        }
        entry := SelCol(c.name, Some(FkProj(f.refColumn, f.refDescription, f.refTable, f.refTable, alias)));
        assert alias == AliasFor(currAlias, cntAlias);
      }
      colsSelect := colsSelect + [entry];
      i := i + 1;
    }
    assert cols[..i] == cols;
  }

  lemma {:induction false} SelColumnsPrefix(cols: seq<Column>, fks: seq<Fk>, n: nat)
    requires n <= |cols|
    ensures SelColumns(cols[..n], fks) == SelColumns(cols, fks)[..n]
    decreases |cols|
  {
    if n == |cols| {
      assert cols[..n] == cols;
    } else {
      var cols' := cols[..|cols| - 1];
      SelColumnsPrefix(cols', fks, n);
      assert cols'[..n] == cols[..n];
    }
  }

  /** Entry i is built from column i and the entries before it. */
  lemma SelColumnsAt(cols: seq<Column>, fks: seq<Fk>, i: nat)
    requires i < |cols|
    ensures SelColumns(cols, fks)[i] == SelEntry(SelColumns(cols, fks)[..i], cols[i], fks)
  {
    var r := SelColumns(cols, fks);
    SelColumnsPrefix(cols, fks, i + 1);
    SelColumnsPrefix(cols, fks, i);
    assert cols[..i + 1][..i] == cols[..i];
    assert r[..i + 1][i] == r[i];
  }

  /** One entry per column with the same name; a foreign key exactly when some key is declared on
      the column, with the referenced column, label and table of the first such key; the entity
      name is the referenced table; and the alias follows the prefix-and-count rule. */
  lemma SelColumnsSpec(cols: seq<Column>, fks: seq<Fk>)
    ensures |SelColumns(cols, fks)| == |cols|
    ensures forall i :: 0 <= i < |cols| ==> SelColumns(cols, fks)[i].name == cols[i].name
    ensures forall i :: 0 <= i < |cols| ==>
      (SelColumns(cols, fks)[i].fk.Some? <==> exists k :: 0 <= k < |fks| && fks[k].column == cols[i].name)
    ensures forall i :: 0 <= i < |cols| && SelColumns(cols, fks)[i].fk.Some? ==>
      var r := SelColumns(cols, fks);
      var f := fks[FkIndex(fks, cols[i].name)];
      var p := AliasPrefix(f.refTable);
      && r[i].fk.value.column == f.refColumn
      && r[i].fk.value.descriptionColumn == f.refDescription
      && r[i].fk.value.table == f.refTable
      && r[i].fk.value.columnEntity == f.refTable
      && r[i].fk.value.alias == AliasFor(p, CountAliasPrefix(r[..i], p))
  {
    forall i | 0 <= i < |cols| {
      SelColumnsAt(cols, fks, i);
    }
  }

  lemma {:induction false} CountAliasPrefixMono(s: seq<SelCol>, m: nat, n: nat, p: string)
    requires m <= n <= |s|
    ensures CountAliasPrefix(s[..m], p) <= CountAliasPrefix(s[..n], p)
    decreases n - m
  {
    if m < n {
      CountAliasPrefixMono(s, m, n - 1, p);
      assert s[..n][..n - 1] == s[..n - 1];
    }
  }

  /** An alias built from prefix p starts with p. */
  lemma AliasForStartsWith(p: string, k: nat)
    ensures IndexOf(AliasFor(p, k), p) == 0
  {
    IndexOfZeroIsPrefix(AliasFor(p, k), p);
  }

  /** Different counts give different aliases. */
  lemma AliasForInjective(p: string, k1: nat, k2: nat)
    requires k1 != k2
    ensures AliasFor(p, k1) != AliasFor(p, k2)
  {
    if k1 > 0 && k2 > 0 && AliasFor(p, k1) == AliasFor(p, k2) {
      assert AliasFor(p, k1)[|p|..] == NatToString(k1);
      assert AliasFor(p, k2)[|p|..] == NatToString(k2);
      NatToStringInjective(k1, k2);
    }
  }

  /** A foreign-key entry's alias is its table's prefix followed by the count of earlier
      entries whose alias starts with that prefix. */
  lemma EntryAlias(cols: seq<Column>, fks: seq<Fk>, i: nat)
    requires i < |cols|
    requires SelColumns(cols, fks)[i].fk.Some?
    ensures var r := SelColumns(cols, fks);
      var p := AliasPrefix(r[i].fk.value.table);
      r[i].fk.value.alias == AliasFor(p, CountAliasPrefix(r[..i], p))
  {
    SelColumnsAt(cols, fks, i);
  }

  /** An entry whose alias starts with p raises the count of the entries after it. */
  lemma CountAliasPrefixAfter(r: seq<SelCol>, i: nat, j: nat, p: string)
    requires i < j <= |r|
    requires AliasStarts(r[i], p)
    ensures CountAliasPrefix(r[..i], p) < CountAliasPrefix(r[..j], p)
  {
    assert r[..i + 1][..i] == r[..i];
    assert CountAliasPrefix(r[..i + 1], p) == CountAliasPrefix(r[..i], p) + 1;
    CountAliasPrefixMono(r, i + 1, j, p);
  }

  /** Two foreign-key entries that join the same table get different aliases. */
  lemma SameTableDistinctAliases(cols: seq<Column>, fks: seq<Fk>, i: nat, j: nat)
    requires i < j < |cols|
    requires SelColumns(cols, fks)[i].fk.Some? && SelColumns(cols, fks)[j].fk.Some?
    requires SelColumns(cols, fks)[i].fk.value.table == SelColumns(cols, fks)[j].fk.value.table
    ensures SelColumns(cols, fks)[i].fk.value.alias != SelColumns(cols, fks)[j].fk.value.alias
  {
    var r := SelColumns(cols, fks);
    var p := AliasPrefix(r[i].fk.value.table);
    var ki := CountAliasPrefix(r[..i], p);
    var kj := CountAliasPrefix(r[..j], p);
    EntryAlias(cols, fks, i);
    EntryAlias(cols, fks, j);
    AliasForStartsWith(p, ki);
    CountAliasPrefixAfter(r, i, j, p);
    AliasForInjective(p, ki, kj);
  }

  /** Aliases are not unique across different tables: a reference to `ab1` followed by one
      to `ab` both join as `ab1`. */
  lemma AliasesCollideAcrossTables()
    ensures var cols := [Column("a_id", true, "int", None), Column("b_id", true, "int", None)];
      var fks := [Fk("a_id", "ab1", "id", None), Fk("b_id", "ab", "id", None)];
      var r := SelColumns(cols, fks);
      && r[0].fk == Some(FkProj("id", None, "ab1", "ab1", "ab1"))
      && r[1].fk == Some(FkProj("id", None, "ab", "ab", "ab1"))
  {
    var cols := [Column("a_id", true, "int", None), Column("b_id", true, "int", None)];
    var fks := [Fk("a_id", "ab1", "id", None), Fk("b_id", "ab", "id", None)];
    var r := SelColumns(cols, fks);
    SelColumnsAt(cols, fks, 0);
    SelColumnsAt(cols, fks, 1);
    assert FkIndex(fks, "a_id") == 0;
    assert FkIndex(fks, "b_id") == 1;
    assert AliasPrefix("ab1") == "ab1";
    assert AliasPrefix("ab") == "ab";
    assert r[..0] == [];
    assert r[0].fk.value.alias == "ab1";
    assert r[..1] == [r[0]];
    IndexOfZeroIsPrefix("ab1", "ab");
    assert CountAliasPrefix(r[..1], "ab") == 1 by {
      assert r[..1][..0] == [];
    }
    assert NatToString(1) == "1";
    assert AliasFor("ab", 1) == "ab1";
    assert r[1] == SelEntry(r[..1], cols[1], fks);
    assert r[1].fk.value.alias == "ab1";
    assert r[0].fk == Some(FkProj("id", None, "ab1", "ab1", "ab1"));
  }

  // ---------------------------------------------------------------------
  // mountSelectSQL: the ordering column
  // ---------------------------------------------------------------------

  /** `name.indexOf('description') > 0`: the name mentions description after its first character. */
  predicate Describes(name: string) {
    IndexOf(name, "description") > 0
  }

  /** The index of the first column whose name Describes, or -1. */
  function DescribedIndex(cols: seq<Column>): (r: int)
    ensures -1 <= r < |cols|
    ensures r == -1 <==> forall k :: 0 <= k < |cols| ==> !Describes(cols[k].name)
    ensures r >= 0 ==> Describes(cols[r].name) && forall k :: 0 <= k < r ==> !Describes(cols[k].name)
  {
    FindIndex(cols, (c: Column) => Describes(c.name))
  }

  /** The column `row_number()` orders by; None renders as undefined. */
  function OrderColumn(t: Table): Option<string> {
    var d := DescribedIndex(t.columns);
    if d >= 0 then Some(t.columns[d].name)
    else if |t.primaryKeys| > 0 then Some(t.primaryKeys[0])
    else None
  }

  /** No column before k qualifies and column k does: the search stops at k. */
  lemma DescribedIndexIsFirst(cols: seq<Column>, k: nat)
    requires k < |cols| && Describes(cols[k].name)
    requires forall m :: 0 <= m < k ==> !Describes(cols[m].name)
    ensures DescribedIndex(cols) == k
  {
    var d := DescribedIndex(cols);
    assert d >= 0;
    assert !(d < k);
  }

  /** The first column whose name mentions description after its start wins; otherwise the
      first primary key; with neither the order column is undefined. */
  lemma OrderColumnSpec(t: Table)
    ensures forall k ::
              0 <= k < |t.columns| && Describes(t.columns[k].name)
              && (forall m :: 0 <= m < k ==> !Describes(t.columns[m].name))
              ==> OrderColumn(t) == Some(t.columns[k].name)
    ensures (forall k :: 0 <= k < |t.columns| ==> !Describes(t.columns[k].name)) && |t.primaryKeys| > 0
      ==> OrderColumn(t) == Some(t.primaryKeys[0])
    ensures OrderColumn(t).None? <==>
      (forall k :: 0 <= k < |t.columns| ==> !Describes(t.columns[k].name)) && |t.primaryKeys| == 0
  {
    forall k | 0 <= k < |t.columns| && Describes(t.columns[k].name)
      && (forall m :: 0 <= m < k ==> !Describes(t.columns[m].name))
      ensures OrderColumn(t) == Some(t.columns[k].name)
    {
      DescribedIndexIsFirst(t.columns, k);
    }
  }

  /** A name that starts with `description` (such as `description` itself) never orders. */
  lemma LeadingDescriptionNeverOrders(name: string)
    requires "description" <= name
    ensures !Describes(name)
  {
    IndexOfZeroIsPrefix(name, "description");
  }

  /** The source's loop: `colOrder` is set by the first qualifying column and then kept. */
  method ChooseOrderColumn(t: Table) returns (colOrder: Option<string>)
    ensures colOrder == OrderColumn(t)
  {
    var cols := t.columns;
    colOrder := None;
    ghost var at := -1;
    var i := 0;
    while i < |cols|
      invariant 0 <= i <= |cols|
      invariant colOrder.None? ==> at == -1 && forall k :: 0 <= k < i ==> !Describes(cols[k].name)
      invariant colOrder.Some? ==> (0 <= at < i && colOrder == Some(cols[at].name) && Describes(cols[at].name)
        && forall k :: 0 <= k < at ==> !Describes(cols[k].name))
    {
      if colOrder.None? {
        if IndexOf(cols[i].name, "description") > 0 {
          colOrder := Some(cols[i].name);
          at := i;
        }
      }
      i := i + 1;
    }
    OrderColumnSpec(t);
    if colOrder.None? {
      if |t.primaryKeys| > 0 {
        colOrder := Some(t.primaryKeys[0]);
      }
    }
  }
}
