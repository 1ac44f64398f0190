# import-db code generator — a Dafny model

`import-db.js` reads table metadata from a MySQL catalog. For every configured table it writes two
JavaScript files:

- a controller file with two SQL constants (`SQL_INS_<TABLE>` and a paginated `SQL_SEL_<TABLE>`
  with left joins) and a class with the CRUD methods;
- a route file that mounts three HTTP routes on these methods.

This project models the generator's core. It models how catalog rows are grouped into tables. It
models the column planning: the insert columns, the projection list with its join aliases, and the
ordering column. It models every emitter as the sequence of lines it writes, with one line per
`writeStr` call. Finally, it models the driver that names the files and runs over the tables.

## Modules

- `Wrappers` and `JsText` (`js_text.dfy`): `Option`/`Result`, and the JavaScript string operations
  the generator uses, on ASCII text:
  - `toLowerCase`/`toUpperCase`;
  - `indexOf`, `find`/`findIndex`;
  - `split`/`join`, `replaceAll` of one character;
  - template rendering of numbers, `null` and `undefined`;
  - the comma-after-all-but-the-last pattern.
- `Schema` and `Catalog` (`catalog.dfy`):
  - the entities `Column`, `Fk`, `Table` and the errors the generator throws;
  - `getTableFKs`' row mapping;
  - the column query with its `:tables` placeholders;
  - the `getTablesInfo` grouping loop, as the method `GetTablesInfo` proved against the function
    `Group`.
- `Planner` (`planner.dfy`), each a loop-based method proved against a function:
  - `mountInsertSQL`'s choice of columns;
  - `getSelColumns` with its two `reduce` counts;
  - `mountSelectSQL`'s ordering-column loop.
- `Names` (`names.dfy`):
  - `capitalizeName`;
  - the element name (`_` becomes `-`);
  - the plural of the route resource.
- `SqlText` (`sql_text.dfy`): the INSERT and SELECT statements as line sequences. The emitting
  methods follow the source's `forEach` loops.
- `ControllerText` (`controller_text.dfy`): `getStrColumnIsFilled` and every emitted method:
  - `getSaveOptions`, `getQuery`, `getByIdNT`, `getById`, `saveNT`, `save`, `find`;
  - the three request adapters.
- `Generator` (`generator.dfy`):
  - `makeController`, including the primary-key check and the order in which lines are emitted;
  - `makeRoute`, the route lines and the routes they mount;
  - `makeTable`, the derived names and paths;
  - `process`, the run over the tables that stops at the first table that fails.

### How files are represented

A generated file is an `Artifact(path, source)`. `Text(source)` gives its lines:

- for a controller, `ControllerLines(table, className, inc)`, which `MakeController` returns;
- for a route, `RouteLines(elementName)`.

The driver (`MakeTable`, `MakeTables`, `Process`) is proved against `TableArtifacts` and
`ProcessTables` over these descriptors. The content of each file is proved where it is produced.

### Behaviour of the code worth knowing

- **Aliases are not lower-cased and not always unique.** An alias is the first three characters
  of the referenced table, as written. `AliasesCollideAcrossTables` shows two entries with the
  same alias: `ab1` followed by `ab`. Only entries that join the same table are guaranteed
  distinct aliases (`SameTableDistinctAliases`).
- **Entity names are never suffixed.**
  - The duplicate-table count compares against `itmFk.table`, a field the foreign-key records
    never have, so the count is always 0 (`CountSameTable`, `CountTableRefs`).
  - As a result, `columnEntity` is always the referenced table. The branch that uses the
    undefined `prev` is dead.
  - In the generated `getQuery`, two references to the same table yield the same field name, and
    the later field overwrites the earlier one (`QueryFieldsCollide`).
- **The ordering column.** It is the first column whose first occurrence of `description` is at
  index 1 or later. A column named exactly `description` never qualifies (`LeadingDescriptionNeverOrders`).
- **`saveNT` always takes the business id.** It is emitted with `, idBusiness` because the driver
  passes the table where the flag is expected, and a table is always truthy.
- **`getById` and `find` always take `idBusiness`.** Without the business id the generated code
  disagrees with itself in five places. In four of them `conn` lands in the wrong
  parameter:
  - `getById` calls `getByIdNT` with three arguments, but `getByIdNT` declares two
    (`GetByIdCallDisagreesWithoutBusinessId`);
  - `save` calls `saveNT` with two arguments, but `saveNT` declares three
    (`SaveCallsSaveNTWithoutBusinessId`);
  - `getByIdReq` calls `getById` with two arguments, but `getById` declares three
    (`GetByIdReqCallsGetByIdWithoutBusinessId`);
  - `findReq` calls `find` with two arguments, but `find` declares three
    (`FindReqCallsFindWithoutBusinessId`).

  In the fifth, `saveNT` is always written with the flag set, so it calls
  `getSaveOptions(data, idBusiness)`, while `getSaveOptions` declares only `data`. This call only
  passes an extra argument (`SaveNTPassesBusinessIdToGetSaveOptions`,
  `GetSaveOptionsWithoutBusinessIdTakesData`).
- **`getQuery` reads back what the SELECT projects**, for every column that is not a primary key
  (`QueryReadsProjection`). A primary-key column that also carries a foreign key is the exception:
  `getQuery` reads it as `itm.<name>`, while the SELECT projects it only as `<entity>_id` and
  `<entity>_description`, so the generated `id` is undefined (`KeyWithForeignKeyReadsItsName`,
  `KeyWithForeignKeyIsUndefined`).

## Model

| member | source | states |
|---|---|---|
| JsText.NatToString | import-db.js:335 | the decimal rendering of a count is non-empty and made of digits only |
| JsText.ParseNatToString | import-db.js:335 | reading the rendered digits back gives the count |
| JsText.NatToStringInjective | import-db.js:335 | different counts are rendered as different texts |
| JsText.IndexOf | import-db.js:329 | the result is -1 exactly when the pattern occurs nowhere; otherwise it is the first position where the pattern occurs |
| JsText.IndexOfZeroIsPrefix | import-db.js:329 | `indexOf(p) === 0` holds exactly when p is a prefix |
| JsText.FindIndex | import-db.js:310 | the result is -1 exactly when no element satisfies the test; otherwise it is the first element that does |
| JsText.Split | import-db.js:129 | a split yields one more piece than there are separators, and no piece contains the separator |
| JsText.JoinSplit | import-db.js:129 | joining the pieces of a split with the separator gives the text back |
| JsText.PlaceholderCount | import-db.js:298 | n `?` joined by `', '` contain exactly n placeholders |
| JsText.CommaEnd | import-db.js:422 | `idx === len - 1 ? '' : ','` is the same as `idx < len - 1 ? ',' : ''` for every valid index |
| JsText.ReplaceCharProperties | import-db.js:599 | `replaceAll('_', '-')` keeps the length, leaves no `_` and keeps every other character |
| Catalog.TableFksIsOneToOne | import-db.js:117-125 | the foreign-key rows become one record each, in row order, and no field is lost |
| Catalog.ColumnsQuery | import-db.js:129-131 | there is one parameter per comma-separated table name plus the schema; the names rejoined with `,` are the configured list, and the schema comes last |
| Catalog.ColumnsQueryPlaceholders | import-db.js:129-131 | the query gains one `?` per table name, and the bound names rejoined are the configured list |
| Catalog.Group | import-db.js:135-154 | a successful grouping of a non-empty row list has at least one table |
| Catalog.GetTablesInfo | import-db.js:132-157 | the loop fails with 'No tables found' when no rows come back. Otherwise it builds exactly the grouping of the rows, or fails when the current table is undefined |
| Catalog.GroupFailsIffFirstRowStartsNoTable | import-db.js:134-145 | grouping fails exactly when the first row has rn !== 1, and then because the current table is undefined |
| Catalog.GroupKeepsEveryRow | import-db.js:135-154 | every row becomes one column, with `required` iff IS_NULLABLE is 'NO', in row order. Every 'PRI' row becomes one primary key in row order. Every rn === 1 row starts one table |
| Catalog.GroupOneTable | import-db.js:136-153 | rows that start with rn === 1 and contain no other such row form exactly one table, with all their columns and keys and the table's foreign keys |
| Catalog.GroupSplitsAtStart | import-db.js:136-142 | a row with rn === 1 starts a fresh table: the rows before it are grouped on their own |
| Planner.NonKeyColumns | import-db.js:288-293 | a column is kept exactly when its name is not a primary key |
| Planner.NonKeyColumnsAppend | import-db.js:289-293 | the filter distributes over concatenation, so the kept columns stay in table order |
| Planner.InsertColumns | import-db.js:288-293 | the loop pushes exactly the non-key columns, in order |
| Planner.FkIndex | import-db.js:310 | the first foreign key declared on the column, or none |
| Planner.AliasPrefix | import-db.js:327 | `substr(0, 3)` is a prefix of the table name, of length min(3, length) |
| Planner.CountSameTable | import-db.js:318-323 | compared with an undefined table, the count is 0 |
| Planner.CountTableRefs | import-db.js:318-323 | the `cntTable` reduce loop computes that count |
| Planner.CountAliasRefs | import-db.js:328-333 | the `cntAlias` reduce loop counts the earlier entries whose alias starts with the prefix |
| Planner.SelColumns | import-db.js:306-340 | one entry per column |
| Planner.GetSelColumns | import-db.js:304-342 | the loop builds exactly the projection list |
| Planner.SelColumnsAt | import-db.js:306-339 | entry i is built from column i and the entries before it |
| Planner.SelColumnsSpec | import-db.js:306-340 | there is one entry per column, with the same name and order. An entry has a foreign key iff some key is declared on its column; it takes the first such key's column, label and table. `columnEntity` is the referenced table. The alias is the prefix followed by the count of earlier entries with that prefix |
| Planner.EntryAlias | import-db.js:327-337 | a joined entry's alias is the prefix plus the count of earlier entries whose alias starts with it |
| Planner.AliasForInjective | import-db.js:334-337 | different counts give different aliases |
| Planner.SameTableDistinctAliases | import-db.js:316-337 | two entries that join the same table get different aliases |
| Planner.AliasesCollideAcrossTables | import-db.js:327-337 | a reference to `ab1` followed by one to `ab` gives both the alias `ab1` |
| Planner.DescribedIndex | import-db.js:346-352 | the first column whose first occurrence of `description` is at index 1 or later, or none |
| Planner.DescribedIndexIsFirst | import-db.js:346-352 | the search stops at the first qualifying column |
| Planner.OrderColumnSpec | import-db.js:345-355 | the first qualifying column wins; otherwise the first primary key is used; with neither the column is undefined, and only then |
| Planner.LeadingDescriptionNeverOrders | import-db.js:348 | a name that starts with `description` never qualifies |
| Planner.ChooseOrderColumn | import-db.js:345-355 | the loop sets `colOrder` at the first qualifying column and keeps it, falling back to `primaryKeys[0]` |
| Names.CapitalizeIsChars | import-db.js:586-595 | splitting on `_`, capitalising every word and joining with '' is the same as reading the name character by character, dropping each `_` |
| Names.CapitalizeCharAt | import-db.js:586-595 | the class name is as long as the table name without underscores. Each other character of the table name keeps its place among those characters; it is upper-cased (after lower-casing) when it is first or follows a `_`, and lower-cased otherwise |
| Names.CapitalizeCharSource | import-db.js:586-595 | every character of the class name comes from such a character of the table name |
| Names.CapitalizeIsNameWithoutUnderscores | import-db.js:586-595 | ignoring letter case, the class name is the table name without its underscores |
| Names.CapitalizeHasNoUnderscore | import-db.js:586-595 | the class name contains no underscore |
| Names.LowerCapWord | import-db.js:588-591 | capitalising a word changes only letter case |
| Names.ElementName | import-db.js:599 | same length, no `_`, each `_` becomes `-` and every other character is kept |
| Names.ElementNamesCollide | import-db.js:599 | `a_b` and `a-b` share an element name and hence their files |
| Names.Plural | import-db.js:567-570 | the resource name is non-empty and ends in `s` |
| Names.SingularOfPlural | import-db.js:567-570 | for names not ending in `ie`, the element name can be read back from its plural |
| Names.PluralCollides | import-db.js:567-570 | `by` and `bie` share the plural `bies` |
| SqlText.InsertColumnLines | import-db.js:294-296 | one line per insert column |
| SqlText.InsertSqlShape | import-db.js:284-300 | the INSERT names each non-key column on its own line, in order, with a comma on all but the last. Its `values(...)` line holds exactly as many `?` |
| SqlText.MountInsertSql | import-db.js:284-302 | the method returns the non-key columns and writes exactly the INSERT lines |
| SqlText.BaseLines | import-db.js:362-364 | one inner column line per entry |
| SqlText.ProjectionBlock | import-db.js:376-383 | a joined entry projects two lines (id and label), any other entry one |
| SqlText.ProjectedColumns | import-db.js:376-381 | the result columns an entry projects: `bas.<name>` keeps the column's name, a joined entry's id and label are named `<entity>_id` and `<entity>_description` on their lines |
| SqlText.JoinBlock | import-db.js:386-390 | exactly the joined entries produce a left join |
| SqlText.ProjectionLength | import-db.js:376-390 | the outer projection has one line per entry plus one per joined entry, and there is one join per joined entry |
| SqlText.SelectInnerShape | import-db.js:357-375 | the inner query lists every entry's base column, in order, and orders its window by the chosen column |
| SqlText.SelectOuterShape | import-db.js:375-396 | the outer query has 8 + n + 2·(joined entries) lines and the left join of every joined entry |
| SqlText.SelectSqlShape | import-db.js:344-398 | the whole SELECT: its line count, every base column in order, the ordering line, and a left join for every alias it projects |
| SqlText.EmitBaseLines | import-db.js:362-364 | the loop writes the inner column lines |
| SqlText.EmitProjection | import-db.js:376-383 | the loop writes the outer projection |
| SqlText.EmitJoins | import-db.js:386-390 | the loop writes the left joins |
| SqlText.MountSelectSql | import-db.js:344-398 | the method returns the projection list and writes the SELECT, ordered by the chosen column |
| ControllerText.IsFilledData | import-db.js:161-170 | the guard is `(data.c >= 0)` for int/float columns and `data.c` otherwise |
| ControllerText.DateBlocks | import-db.js:179-187 | one conversion block per column |
| ControllerText.GuardBlock | import-db.js:199-204 | a guard is three lines |
| ControllerText.GuardBlocks | import-db.js:198-206 | one, possibly empty, block per column |
| ControllerText.RequiredNonKeyColumns | import-db.js:199-200 | a column is guarded exactly when it is required and not a primary key |
| ControllerText.GuardBlocksFilter | import-db.js:198-220 | walking every column and skipping the others is walking the required non-key columns |
| ControllerText.GuardLinesAt | import-db.js:198-220 | guard k occupies lines 3k to 3k+2: its test, its action and its closing brace |
| ControllerText.SaveOptionsGuards | import-db.js:198-220 | both branches walk the required non-key columns in table order with the same guard; the update branch calls `functUpd('c')`, the insert branch throws '<CapitalizedName> is mandatory' when the guard fails; each guard is closed on its third line |
| ControllerText.ValueLines | import-db.js:223-229 | one values entry per insert column |
| ControllerText.ValuesMatchInsertColumns | import-db.js:222-229 | entry k reads insert column k. A varchar entry is cut to the column length, or null. Every entry but the last ends with a comma. There are as many entries as INSERT placeholders |
| ControllerText.EmitDateBlocks | import-db.js:179-187 | the loop writes the datetime conversions |
| ControllerText.EmitGuards | import-db.js:198-220 | the loop writes one branch's guards |
| ControllerText.EmitValues | import-db.js:223-229 | the loop writes the values entries |
| ControllerText.GenerateGetSaveOptions | import-db.js:172-235 | the method writes exactly the getSaveOptions lines |
| ControllerText.QueryFieldBlock | import-db.js:421-433 | a joined non-key entry becomes a four-line object, any other entry one line |
| ControllerText.ReadColumns | import-db.js:421-432 | the `itm` fields an entry's result lines read: `itm.<name>` for a key or a plain column, `itm.<entity>_id` and `itm.<entity>_description` for a joined non-key entry |
| ControllerText.QueryReadsProjection | import-db.js:376-432 | for every entry that is not a primary key, the fields getQuery reads are exactly the columns the SELECT projects for it, in order |
| ControllerText.KeyWithForeignKeyReadsItsName | import-db.js:376-425 | a primary key with a foreign key is read as `itm.<name>` but projected only as `<entity>_id` and `<entity>_description` |
| ControllerText.KeyWithForeignKeyIsUndefined | import-db.js:423-425 | a key `id` referencing `parent` is read as `itm.id` while the SELECT yields only `parent_id` and `parent_description` |
| ControllerText.EmitQueryFields | import-db.js:421-433 | the loop writes the result fields |
| ControllerText.GenerateGetQuery | import-db.js:400-439 | the method writes exactly the getQuery lines |
| ControllerText.QueryFieldsCollide | import-db.js:425-429 | two non-key entries that join the same table produce result fields of the same name |
| ControllerText.GetByIdCallDisagreesWithoutBusinessId | import-db.js:443-456 | without the business id, getByIdNT takes (id, conn) while getById passes three arguments |
| ControllerText.SaveNTTakesBusinessId | import-db.js:237-239 | saveNT, emitted with the flag set as the driver does, declares the business id |
| ControllerText.SaveNTPassesBusinessIdToGetSaveOptions | import-db.js:237-240 | saveNT, emitted with the flag set as the driver does, calls getSaveOptions with the business id |
| ControllerText.GetSaveOptionsWithoutBusinessIdTakesData | import-db.js:172-173 | without the business id, getSaveOptions declares only `data` |
| ControllerText.SaveCallsSaveNTWithoutBusinessId | import-db.js:255-259 | without the business id, save calls saveNT with two arguments |
| ControllerText.FindAlwaysTakesBusinessId | import-db.js:468 | find declares `idBusiness` even when it does not filter by it |
| ControllerText.GetByIdReqCallsGetByIdWithoutBusinessId | import-db.js:506-508 | without the business id, getByIdReq calls getById with two arguments |
| ControllerText.FindReqCallsFindWithoutBusinessId | import-db.js:515-517 | without the business id, findReq calls find with two arguments |
| ControllerText.FilterBlock | import-db.js:480-494 | a key entry gets no filter, any other entry a four-line filter |
| ControllerText.FilterLinesLength | import-db.js:479-495 | the filters take four lines per non-key entry |
| ControllerText.FilterBlockSpec | import-db.js:480-492 | a joined entry is filtered through the query field named after its entity, while the condition is on its own column. It is a `like` match exactly when the query field contains `description` |
| ControllerText.EmitFilter | import-db.js:480-494 | the method writes one entry's filter |
| ControllerText.EmitFilters | import-db.js:479-495 | the loop writes every filter |
| ControllerText.GenerateFind | import-db.js:467-504 | the method writes exactly the find lines |
| ControllerText.Adapter | import-db.js:506-522 | an adapter is six lines, headed by a static method taking (req, res, conn) |
| Generator.MakeSqlConstants | import-db.js:538-539 | the INSERT and then the SELECT constant |
| Generator.MakeClassBody | import-db.js:540-551 | the class methods in the source's call order |
| Generator.MakeController | import-db.js:524-558 | a table without primary keys fails with 'No primary keys' before any line is written; otherwise the prelude, both constants and the class are written in order |
| Generator.RouteFileMountsEveryRoute | import-db.js:567-579 | the route file has eight lines and mounts each of the three routes, each under `/<plural>/` |
| Generator.RouteHandlersAreAdapters | import-db.js:576-578 | every handler a route names is a request adapter of the controller class |
| Generator.RouteLoadsItsController | import-db.js:573 | the module the route file requires is the controller file written for the same element name |
| Generator.TableArtifacts | import-db.js:597-619 | a table fails exactly when it has no primary keys, and then with 'No primary keys'; otherwise it gets two files, the first its controller |
| Generator.KeylessTableFails | import-db.js:617 | a keyless table's error is the controller's error |
| Generator.MakeTable | import-db.js:597-619 | the method derives the names and paths, calls the controller emitter and yields exactly the table's files |
| Generator.FailIndex | import-db.js:625-627 | the first table that fails, or -1 when none does |
| Generator.ProcessStopsAtFirstFailure | import-db.js:625-627 | a run fails exactly when some table fails, with the first failing table's error, and keeps the files of every table before it |
| Generator.ProcessErrorSticks | import-db.js:625-627 | once a prefix of the run has failed, the whole run has that outcome |
| Generator.WrittenPairs | import-db.js:625-627 | when every table yields two files, table k's files are at positions 2k and 2k+1 |
| Generator.KeylessIndex | import-db.js:625-627 | the first table without primary keys, or -1 |
| Generator.ProcessStopsAtFirstKeyless | import-db.js:621-632 | the run writes the controller and route of every table before the first one without primary keys, then stops with 'No primary keys'. With no such table it writes every table's pair, in order |
| Generator.MakeTables | import-db.js:625-627 | the loop produces exactly the outcome of the run over the tables |
| Generator.Process | import-db.js:621-632 | reads the tables, fails as the catalog reader does, and otherwise runs over them |

## Left out

- Database access is not modelled: `getConnection`, `connect`, `query` and `close`. The rows of
  the column query are an input sequence, and the foreign-key query is a function parameter
  from table name to rows. `./connection-db` is not part of this model.
- The ranking inside the two catalog queries is done by the database. Its results are inputs:
  `rn`, and the label column `refDescription`.
- The file system is not modelled: write streams, `mkdirSync`, `existsSync`, `path.join`.
  - Each file is the sequence of its lines.
  - The `rmSync` of stale files is left out. The source runs it before the primary-key check, so
    a keyless table also loses its old files.
- `console.log` progress output, and the async/await sequencing, which is sequential I/O.
- The runtime behaviour of the generated code is not modelled (transactions, pagination, the
  `replace` substitutions). Only the emitted text is. The argument mismatches listed above are
  shown as text.
- Case mapping and `substr` cover ASCII only. Unicode case mapping is not modelled.
- The configuration flag `includeIdBusiness` is modelled as a boolean. JavaScript's truthiness of
  other values is not modelled.
- The stray expression at import-db.js:465 is not modelled. As written, it is not valid inside a
  class body.
- Generator.MakeTable and Generator.Process return descriptors of the files, not their text. The
  text is the `Text` of each descriptor, proved by `MakeController` and
  `RouteFileMountsEveryRoute`.
- Two tables whose names share an element name write to the same paths (`ElementNamesCollide`).
  A later table then overwrites an earlier one's files; the model keeps both in the list.
