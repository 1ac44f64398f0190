// The generator driver: one controller file and one route file per table,
// named from the table name, and the run over every configured table.

module Generator {
  import opened Wrappers
  import opened JsText
  import opened Schema
  import opened Catalog
  import opened Planner
  import opened Names
  import opened SqlText
  import opened ControllerText

  // ---------------------------------------------------------------------
  // makeController
  // ---------------------------------------------------------------------

  const ControllerPrelude: seq<string> :=
    ["const { ErNotFound, ErBadRequest, ErUnprocEntity } = require(\"../services/error_classes\");",
     "const UtilsLib = require(\"../services/utils_lib\");",
     " "]

  function ClassOpen(className: string): seq<string> {
    ["class " + className + " { ", " "]
  }

  const ClassClose: seq<string> := [" ", "}"]

  /** The SQL constants of a controller. */
  function ControllerSql(t: Table): seq<string> {
    InsertSqlLines(t) + SelectSqlLines(t, TableSelColumns(t), OrderColumn(t))
  }

  /** The class body of a controller. The saveNT emitter receives the table where the flag is
      expected, and a table object is always truthy, so it is written with the business id. */
  function ControllerMethods(t: Table, inc: bool): seq<string> {
    var cs := TableSelColumns(t);
    SaveOptionsLines(t, NonKeyColumns(t.columns, t.primaryKeys), inc)
      + GetQueryLines(t, cs)
      + GetByIdNTLines(t, inc)
      + GetByIdLines
      + SaveNTLines(true)
      + SaveLines(inc)
      + FindLines(t, cs, inc)
      + RequestAdapters(inc)
  }

  function ControllerLines(t: Table, className: string, inc: bool): seq<string> {
    ControllerPrelude + ControllerSql(t) + ClassOpen(className) + ControllerMethods(t, inc) + ClassClose
  }

  /** A controller: refused for a table without primary keys, before any line is written. */
  function ControllerFile(t: Table, className: string, inc: bool): Result<seq<string>, GenError> {
    if |t.primaryKeys| == 0 then Err(NoPrimaryKeys) else Ok(ControllerLines(t, className, inc))
  }

  /** The SQL constants, in the order the source writes them. */
  method MakeSqlConstants(t: Table) returns (lines: seq<string>)
    ensures lines == ControllerSql(t)
  {
    var insertLines, colsInsert := MountInsertSql(t);
    var selectLines, colsSelect := MountSelectSql(t);
    lines := insertLines + selectLines;
  }

  /** The class body, one generator call per method. */
  method MakeClassBody(t: Table, inc: bool) returns (lines: seq<string>)
    ensures lines == ControllerMethods(t, inc)
  {
    var colsInsert := InsertColumns(t);
    var colsSelect := GetSelColumns(t);
    var saveOptions := GenerateGetSaveOptions(t, colsInsert, inc);
    var getQuery := GenerateGetQuery(t, colsSelect);
    var find := GenerateFind(t, colsSelect, inc);
    lines := saveOptions + getQuery + GetByIdNTLines(t, inc) + GetByIdLines + SaveNTLines(true)
      + SaveLines(inc) + find + RequestAdapters(inc);
  }

  /** The source: check the primary keys, then write the prelude, both SQL constants and the
      class in order. */
  method MakeController(t: Table, className: string, inc: bool) returns (r: Result<seq<string>, GenError>)
    ensures r == ControllerFile(t, className, inc)
  {
    if |t.primaryKeys| == 0 {
      return Err(NoPrimaryKeys);
    }
    var sql := MakeSqlConstants(t);
    var methods := MakeClassBody(t, inc);
    return Ok(ControllerPrelude + sql + ClassOpen(className) + methods + ClassClose);
  }

  // ---------------------------------------------------------------------
  // makeRoute
  // ---------------------------------------------------------------------

  /** One route: the HTTP verb, the path and the controller adapter that serves it. */
  datatype Route = Route(verb: string, path: string, handler: string)

  /** The three routes of a table, under the plural of its element name. */
  function Routes(el: string): seq<Route> {
    var base := "/" + Plural(el) + "/";
    [Route("get", base + "id/:id", "getByIdReq"),
     Route("get", base, "findReq"),
     Route("post", base, "saveReq")]
  }

  function RouteLine(r: Route): string {
    "    app." + r.verb + "('" + r.path + "', [authController.verifyClientVersion], (req, res) => handleRequestDB(req, res, controller." + r.handler + "));"
  }

  /** The module path the route file loads its controller from. */
  function ControllerModule(el: string): string {
    "../controllers/" + el + "-controller"
  }

  function RouteLines(el: string): seq<string> {
    var rs := Routes(el);
    ["const authController = require('../controllers/auth-controller');",
     "const controller = require('" + ControllerModule(el) + "');",
     " ",
     "module.exports = (app, handleRequestDB, express)   => {",
     RouteLine(rs[0]),
     RouteLine(rs[1]),
     RouteLine(rs[2]),
     "}"]
  }

  /** The route file mounts every route, each one under the plural resource name. */
  lemma RouteFileMountsEveryRoute(el: string)
    ensures var lines := RouteLines(el);
      && |lines| == 8
      && forall k :: 0 <= k < |Routes(el)| ==>
        lines[4 + k] == RouteLine(Routes(el)[k]) && "/" + Plural(el) + "/" <= Routes(el)[k].path
  {
    var base := "/" + Plural(el) + "/";
    assert (base + "id/:id")[..|base|] == base;
    assert base[..|base|] == base;
  }

  /** Every handler a route names is one of the request adapters of the controller class. */
  lemma RouteHandlersAreAdapters(el: string, inc: bool)
    ensures forall r :: r in Routes(el) ==> AdapterHeader(r.handler) in RequestAdapters(inc)
  {
    assert SaveReqLines(inc)[0] == AdapterHeader("saveReq");
    assert GetByIdReqLines(inc)[0] == AdapterHeader("getByIdReq");
    assert FindReqLines(inc)[0] == AdapterHeader("findReq");
  }

  // ---------------------------------------------------------------------
  // makeTable
  // ---------------------------------------------------------------------

  /** What a generated file holds: the emitter that writes it and what that emitter is given. */
  datatype Source =
    | ControllerSource(table: Table, className: string, inc: bool)
    | RouteSource(el: string)

  /** The text of a generated file, one line per write. */
  function Text(s: Source): seq<string> {
    match s
    case ControllerSource(t, className, inc) => ControllerLines(t, className, inc)
    case RouteSource(el) => RouteLines(el)
  }

  /** A generated file: its path under the output directory and its source. */
  datatype Artifact = Artifact(path: string, source: Source)

  function ControllerPath(el: string): string {
    "controllers/" + el + "-controller.js"
  }

  function RoutePath(el: string): string {
    "routes/" + el + "-route.js"
  }

  function ClassName(tableName: string): string {
    Capitalize(tableName) + "Controller"
  }

  /** The route file, one directory beside the controllers, loads exactly the controller file
      written for the same element name: the module path is the file's path without ".js". */
  lemma RouteLoadsItsController(el: string)
    ensures var cp := ControllerPath(el);
      && |cp| >= 3 && cp[|cp| - 3..] == ".js"
      && ControllerModule(el) == "../" + cp[..|cp| - 3]
  {
    var cp := ControllerPath(el);
    assert cp == ("controllers/" + el + "-controller") + ".js";
    assert cp[..|cp| - 3] == "controllers/" + el + "-controller";
  }

  /** The files of one table: its controller and then its route, or the controller's error. */
  function TableArtifacts(t: Table, inc: bool): (r: Result<seq<Artifact>, GenError>)
    ensures r.Err? <==> |t.primaryKeys| == 0
    ensures r.Err? ==> r.error == NoPrimaryKeys
    ensures r.Ok? ==> |r.value| == 2 && r.value[0].source == ControllerSource(t, ClassName(t.name), inc)
  {
    var el := ElementName(t.name);
    if |t.primaryKeys| == 0 then Err(NoPrimaryKeys)
    else Ok([Artifact(ControllerPath(el), ControllerSource(t, ClassName(t.name), inc)),
             Artifact(RoutePath(el), RouteSource(el))])
  }

  /** A table without primary keys yields no file and the error of the controller. */
  lemma KeylessTableFails(t: Table, inc: bool)
    requires |t.primaryKeys| == 0
    ensures TableArtifacts(t, inc) == Err(NoPrimaryKeys)
    ensures ControllerFile(t, ClassName(t.name), inc) == Err(NoPrimaryKeys)
  {
  }

  /** The source: derive the names, write the controller (which fails without primary keys),
      then the route. The lines of each file are the Text of its source. */
  method MakeTable(t: Table, inc: bool) returns (r: Result<seq<Artifact>, GenError>)
    ensures r == TableArtifacts(t, inc)
  {
    var elementName := ElementName(t.name);
    var controllerFile := ControllerPath(elementName);
    var routeFile := RoutePath(elementName);
    var className := ClassName(t.name);
    var controller := MakeController(t, className, inc);
    if controller.Err? {
      return Err(controller.error);
    }
    r := Ok([Artifact(controllerFile, ControllerSource(t, className, inc)), Artifact(routeFile, RouteSource(elementName))]);
  }

  // ---------------------------------------------------------------------
  // process
  // ---------------------------------------------------------------------

  /** What a run leaves behind: the files written, in order, and the error that stopped it. */
  datatype Outcome = Outcome(files: seq<Artifact>, error: Option<GenError>)

  /** A run over tables, each handled by `make`: in order, and the first failure ends the run,
      keeping the files of the tables before it. */
  function ProcessTables(ts: seq<Table>, make: Table -> Result<seq<Artifact>, GenError>): Outcome
    decreases |ts|
  {
    if |ts| == 0 then Outcome([], None)
    else
      var o := ProcessTables(ts[..|ts| - 1], make);
      if o.error.Some? then o
      else match make(ts[|ts| - 1])
        case Err(e) => Outcome(o.files, Some(e))
        case Ok(fs) => Outcome(o.files + fs, None)
  }

  /** The index of the first table `make` fails on, or -1. */
  function FailIndex(ts: seq<Table>, make: Table -> Result<seq<Artifact>, GenError>): (r: int)
    ensures -1 <= r < |ts|
    ensures r == -1 <==> forall k :: 0 <= k < |ts| ==> make(ts[k]).Ok?
    ensures r >= 0 ==> make(ts[r]).Err? && forall k :: 0 <= k < r ==> make(ts[k]).Ok?
  {
    FindIndex(ts, (t: Table) => make(t).Err?)
  }

  /** The files of the tables before index n, concatenated; every one of them must succeed. */
  function Written(ts: seq<Table>, n: nat, make: Table -> Result<seq<Artifact>, GenError>): seq<Artifact>
    requires n <= |ts|
    requires forall k :: 0 <= k < n ==> make(ts[k]).Ok?
    decreases n
  {
    if n == 0 then [] else Written(ts, n - 1, make) + make(ts[n - 1]).value
  }

  /** A run fails exactly when some table fails, with the error of the first failing table,
      and it keeps the files of every table before that one. */
  lemma {:induction false} ProcessStopsAtFirstFailure(ts: seq<Table>, make: Table -> Result<seq<Artifact>, GenError>)
    ensures var o := ProcessTables(ts, make);
      var f := FailIndex(ts, make);
      && (o.error.Some? <==> f >= 0)
      && (f >= 0 ==> o.error == Some(make(ts[f]).error) && o.files == Written(ts, f, make))
      && (f == -1 ==> o.files == Written(ts, |ts|, make))
    decreases |ts|
  {
    if |ts| > 0 {
      var ts' := ts[..|ts| - 1];
      ProcessStopsAtFirstFailure(ts', make);
      var f' := FailIndex(ts', make);
      var f := FailIndex(ts, make);
      forall k | 0 <= k < |ts'|
        ensures ts[k] == ts'[k]
      {
      }
      if f' >= 0 {
        assert f == f';
        WrittenSame(ts, ts', f, make);
      } else {
        WrittenSame(ts, ts', |ts'|, make);
      }
    }
  }

  lemma {:induction false} WrittenSame(ts: seq<Table>, us: seq<Table>, n: nat, make: Table -> Result<seq<Artifact>, GenError>)
    requires n <= |ts| && n <= |us|
    requires forall k :: 0 <= k < n ==> ts[k] == us[k] && make(ts[k]).Ok?
    ensures Written(ts, n, make) == Written(us, n, make)
    decreases n
  {
    if n > 0 {
      WrittenSame(ts, us, n - 1, make);
    }
  }

  /** Once a prefix of the run has failed, the whole run has. */
  lemma {:induction false} ProcessErrorSticks(ts: seq<Table>, n: nat, make: Table -> Result<seq<Artifact>, GenError>)
    requires n <= |ts|
    requires ProcessTables(ts[..n], make).error.Some?
    ensures ProcessTables(ts, make) == ProcessTables(ts[..n], make)
    decreases |ts| - n
  {
    if n < |ts| {
      assert ts[..n + 1][..n] == ts[..n];
      ProcessErrorSticks(ts, n + 1, make);
    } else {
      assert ts[..n] == ts;
    }
  }

  /** When every table writes two files, the run writes the k-th table's pair at 2k and 2k + 1. */
  lemma {:induction false} WrittenPairs(ts: seq<Table>, n: nat, make: Table -> Result<seq<Artifact>, GenError>)
    requires n <= |ts|
    requires forall k :: 0 <= k < n ==> make(ts[k]).Ok? && |make(ts[k]).value| == 2
    ensures var w := Written(ts, n, make);
      |w| == 2 * n
      && forall k :: 0 <= k < n ==> w[2 * k] == make(ts[k]).value[0] && w[2 * k + 1] == make(ts[k]).value[1]
    decreases n
  {
    if n > 0 {
      WrittenPairs(ts, n - 1, make);
    }
  }

  /** The maker of the source's run. */
  function Maker(inc: bool): Table -> Result<seq<Artifact>, GenError> {
    t => TableArtifacts(t, inc)
  }

  function ProcessAll(tables: string, rows: seq<CatalogRow>, fkQuery: string -> seq<FkRow>, inc: bool): Outcome {
    match TablesInfo(tables, rows, fkQuery)
    case Err(e) => Outcome([], Some(e))
    case Ok(ts) => ProcessTables(ts, Maker(inc))
  }

  /** The index of the first table without primary keys, or -1. */
  function KeylessIndex(ts: seq<Table>): (r: int)
    ensures -1 <= r < |ts|
    ensures r == -1 <==> forall k :: 0 <= k < |ts| ==> |ts[k].primaryKeys| > 0
    ensures r >= 0 ==> |ts[r].primaryKeys| == 0 && forall k :: 0 <= k < r ==> |ts[k].primaryKeys| > 0
  {
    FindIndex(ts, (t: Table) => |t.primaryKeys| == 0)
  }

  /** The source's run writes the controller and the route of every table before the first one
      without primary keys, and stops there with that error; with no such table it writes them all. */
  lemma ProcessStopsAtFirstKeyless(ts: seq<Table>, inc: bool)
    ensures var o := ProcessTables(ts, Maker(inc));
      var f := KeylessIndex(ts);
      var n := if f >= 0 then f else |ts|;
      && (o.error.Some? <==> f >= 0)
      && (o.error.Some? ==> o.error == Some(NoPrimaryKeys))
      && |o.files| == 2 * n
      && forall k :: 0 <= k < n ==>
        var el := ElementName(ts[k].name);
        o.files[2 * k] == Artifact(ControllerPath(el), ControllerSource(ts[k], ClassName(ts[k].name), inc))
        && o.files[2 * k + 1] == Artifact(RoutePath(el), RouteSource(el))
  {
    var make := Maker(inc);
    forall k | 0 <= k < |ts|
      ensures make(ts[k]).Err? <==> |ts[k].primaryKeys| == 0
    {
    }
    ProcessStopsAtFirstFailure(ts, make);
    var f := KeylessIndex(ts);
    assert f == FailIndex(ts, make);
    var n := if f >= 0 then f else |ts|;
    WrittenPairs(ts, n, make);
  }

  /** The source's run: read the tables, then make every table's files in order. */
  method Process(tables: string, rows: seq<CatalogRow>, fkQuery: string -> seq<FkRow>, inc: bool)
    returns (o: Outcome)
    ensures o == ProcessAll(tables, rows, fkQuery, inc)
  {
    var info := GetTablesInfo(tables, rows, fkQuery);
    if info.Err? {
      return Outcome([], Some(info.error));
    }
    o := MakeTables(info.value, inc);
  }

  /** The loop of the source's run over the tables. */
  method MakeTables(ts: seq<Table>, inc: bool) returns (o: Outcome)
    ensures o == ProcessTables(ts, Maker(inc))
  {
    var files: seq<Artifact> := [];
    var i := 0;
    while i < |ts|
      invariant 0 <= i <= |ts|
      invariant ProcessTables(ts[..i], Maker(inc)) == Outcome(files, None)
    {
      assert ts[..i + 1][..i] == ts[..i];
      var made := MakeTable(ts[i], inc);
      if made.Err? {
        o := Outcome(files, Some(made.error));
        ProcessErrorSticks(ts, i + 1, Maker(inc));
        return;
      }
      files := files + made.value;
      i := i + 1;
    }
    assert ts[..i] == ts;
    o := Outcome(files, None);
  }
}
