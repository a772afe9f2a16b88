/**
 * The direct-SQL gateway around the WHERE compiler: API-key check, table
 * allow-list, the memoising schema cache, select-list and ORDER BY
 * validation, and the parameterised statement the table endpoint runs.
 */
module SqlGateway {
  import opened Wrappers
  import opened Text
  import opened Params
  import opened SqlWhere

  /** The tables this gateway exposes. */
  const Tables: seq<string> := [
    "account", "account_route", "address", "customer", "customer_voucher", "destination", "domestic",
    "domestic_packing", "feedback", "order_links", "order_process_log",
    "orders", "packing", "packing_domestic", "partial_shipment", "payment", "payment_orders", "product_type",
    "purchases", "route", "shipment_tracking", "staff", "warehouse", "voucher", "voucher_route",
    "warehouse_location", "websites"
  ]

  // ------------------------------------------------------------ access control

  /** `check_api_key`: the `X-API-Key` header (empty when absent) must equal the configured key. */
  predicate Authorized(header: Option<string>, apiKey: string) {
    header.GetOr("") == apiKey
  }

  /** `get_table_or_404`. */
  function TableOr404(table: string): (r: Result<string, ApiError>)
    ensures r.Ok? <==> table in Tables
    ensures r.Ok? ==> r.value == table
    ensures r.Err? ==> r.error == TableNotAllowed(table) && Status(r.error) == 404
  {
    if table !in Tables then Err(TableNotAllowed(table)) else Ok(table)
  }

  /** `GET /api/meta/tables`: the allow-list and its size, for an authorised caller only. */
  function ListTables(header: Option<string>, apiKey: string): (r: Result<(seq<string>, nat), ApiError>)
    ensures r.Ok? <==> Authorized(header, apiKey)
    ensures r.Ok? ==> r.value.0 == Tables && r.value.1 == |Tables|
    ensures r.Err? ==> Status(r.error) == 401
  {
    if !Authorized(header, apiKey) then Err(Unauthorized) else Ok((Tables, |Tables|))
  }

  // ------------------------------------------------------------- schema cache

  /** One row of `information_schema.columns` as the probe selects it. */
  datatype CatalogRow = CatalogRow(columnName: string, dataType: string, isNullable: string)

  /** A column descriptor of the cache. */
  datatype ColumnInfo = ColumnInfo(name: string, dataType: string, nullable: bool)

  /**
   * `fetch_schema`: the catalog rows of the table as descriptors; a failed
   * catalog query (`None`) yields the empty list instead of raising.
   */
  function FetchSchema(catalog: Option<seq<CatalogRow>>): (columns: seq<ColumnInfo>)
    ensures catalog.None? ==> columns == []
    ensures catalog.Some? ==> |columns| == |catalog.value|
    ensures catalog.Some? ==> forall i | 0 <= i < |columns| ::
      && columns[i].name == catalog.value[i].columnName
      && (columns[i].nullable <==> catalog.value[i].isNullable == "YES")
  {
    match catalog
    case None => []
    case Some(rows) =>
      seq(|rows|, i requires 0 <= i < |rows| => ColumnInfo(rows[i].columnName, rows[i].dataType, rows[i].isNullable == "YES"))
  }

  /**
   * The cache after looking `table` up: a miss stores the probe's outcome,
   * the empty list of a failed probe included; nothing stored ever changes.
   */
  function Stored(entries: map<string, seq<ColumnInfo>>, table: string, catalog: Option<seq<CatalogRow>>): (m: map<string, seq<ColumnInfo>>)
    ensures m.Keys == entries.Keys + {table}
    ensures forall t | t in entries :: m[t] == entries[t]
    ensures table !in entries ==> m[table] == FetchSchema(catalog)
  {
    if table in entries then entries else entries[table := FetchSchema(catalog)]
  }

  /** `SCHEMA_CACHE` with `get_schema`. */
  class SchemaCache {
    var entries: map<string, seq<ColumnInfo>>

    constructor ()
      ensures entries == map[]
    {
      entries := map[];
    }

    /**
     * `get_schema`: probes only on a miss (`probed`), stores whatever the
     * probe gave, and otherwise returns the stored list unchanged. The
     * catalog is the answer the probe would get; it is ignored on a hit.
     */
    method GetSchema(table: string, catalog: Option<seq<CatalogRow>>) returns (columns: seq<ColumnInfo>, probed: bool)
      modifies this
      ensures probed <==> table !in old(entries)
      ensures entries == Stored(old(entries), table, catalog)
      ensures columns == entries[table]
      ensures !probed ==> columns == old(entries)[table]
    {
      probed := table !in entries;
      if probed {
        entries := entries[table := FetchSchema(catalog)];
      }
      columns := entries[table];
    }
  }

  /** `allowed_columns_set`: the names of the cached columns. */
  function AllowedColumns(columns: seq<ColumnInfo>): (names: set<string>)
    ensures forall c | c in columns :: c.name in names
    ensures forall n | n in names :: exists c | c in columns :: c.name == n
    ensures columns == [] ==> names == {}
  {
    set c | c in columns :: c.name
  }

  /** The columns a request may name are exactly those the catalog listed; none when the catalog query failed. */
  lemma CatalogColumns(catalog: Option<seq<CatalogRow>>, name: string)
    ensures name in AllowedColumns(FetchSchema(catalog)) <==>
      catalog.Some? && exists i | 0 <= i < |catalog.value| :: catalog.value[i].columnName == name
  {
    var columns := FetchSchema(catalog);
    if name in AllowedColumns(columns) {
      var c :| c in columns && c.name == name;
      var i :| 0 <= i < |columns| && columns[i] == c;
    }
    if catalog.Some? && exists i | 0 <= i < |catalog.value| :: catalog.value[i].columnName == name {
      var i :| 0 <= i < |catalog.value| && catalog.value[i].columnName == name;
      assert columns[i] in columns;
    }
  }

  // --------------------------------------------------------- select, order by

  /** `[c for c in cols if c not in allowed]`, in order. */
  function Unknown(cols: seq<string>, allowed: set<string>): (r: seq<string>)
    ensures forall c :: c in r <==> c in cols && c !in allowed
  {
    if cols == [] then []
    else (if cols[0] in allowed then [] else [cols[0]]) + Unknown(cols[1..], allowed)
  }

  function QuoteAll(cols: seq<string>): (r: seq<string>)
    ensures |r| == |cols| && forall i | 0 <= i < |cols| :: r[i] == Quote(cols[i])
  {
    seq(|cols|, i requires 0 <= i < |cols| => Quote(cols[i]))
  }

  /**
   * The select list: `*` as given; otherwise the trimmed, non-blank
   * comma items, which must all be known columns, each double-quoted.
   */
  function SelectList(select: string, allowed: set<string>): (r: Result<string, ApiError>)
    ensures select == "*" ==> r == Ok("*")
    ensures select != "*" ==> (r.Ok? <==> forall c | c in CommaItems(select) :: c in allowed)
    ensures r.Err? ==> r.error == InvalidSelect(Unknown(CommaItems(select), allowed)) && r.error.columns != []
    ensures r.Ok? && select != "*" ==> r.value == JoinWith(QuoteAll(CommaItems(select)), ", ")
  {
    if select == "*" then Ok("*")
    else
      var cols := CommaItems(select);
      var invalid := Unknown(cols, allowed);
      if invalid != [] then
        assert invalid[0] in invalid;
        Err(InvalidSelect(invalid))
      else Ok(JoinWith(QuoteAll(cols), ", "))
  }

  /** `ORDER BY "<order>" DESC|ASC` for a known column, nothing without `order`. */
  function OrderClause(order: Option<string>, desc: bool, allowed: set<string>): (r: Result<string, ApiError>)
    ensures order.None? || order == Some("") ==> r == Ok("")
    ensures order.Some? && order.value != "" ==> (r.Ok? <==> order.value in allowed)
    ensures r.Err? ==> r.error == UnknownOrderColumn(order.value)
    ensures r.Ok? && order.Some? && order.value != "" ==>
      r.value == "ORDER BY " + Quote(order.value) + (if desc then " DESC" else " ASC")
  {
    if order.None? || order.value == "" then Ok("")
    else if order.value !in allowed then Err(UnknownOrderColumn(order.value))
    else Ok("ORDER BY " + Quote(order.value) + (if desc then " DESC" else " ASC"))
  }

  // ---------------------------------------------------------------- statement

  /** A value bound to a `%s` placeholder. */
  datatype SqlParam = TextParam(text: string) | IntParam(number: int)

  /** The statement text and the parameters `cur.execute` binds into it. */
  datatype Statement = Statement(text: string, params: seq<SqlParam>)

  function TextParams(values: seq<string>): (r: seq<SqlParam>)
    ensures |r| == |values|
  {
    seq(|values|, i requires 0 <= i < |values| => TextParam(values[i]))
  }

  /** A non-empty `count` asks for the window count alongside the rows. */
  function FinalSelect(selectList: string, count: Option<string>): string {
    var counting := count.Some? && count.value != "";
    var countSelect := if counting then "COUNT(*) OVER() AS full_count," else "";
    if selectList != "*" || counting then countSelect + " " + selectList else selectList
  }

  /** The line break and indentation between the clauses of the statement. */
  const Line := "\n            "

  /** The statement text, laid out line by line as the endpoint writes it. */
  function StatementText(finalSelect: string, table: string, where: string, order: string): string {
    JoinWith(["", "SELECT " + finalSelect, "FROM " + Quote(table), where, order, "LIMIT %s OFFSET %s"], Line) + "\n        "
  }

  /** Arguments the framework decodes from the query string for the table endpoint. */
  datatype QueryArgs = QueryArgs(select: string, order: Option<string>, desc: bool, limit: int, offset: int, count: Option<string>)

  /** What the framework's query validation admits: `1 <= limit <= 1000`, `offset >= 0`, and the `count` pattern. */
  predicate ValidArgs(args: QueryArgs) {
    && 1 <= args.limit <= 1000
    && args.offset >= 0
    && (args.count.None? || args.count.value in {"", "exact", "planned", "estimated"})
  }

  /** The arguments of a request that gives none: every column, no order, descending, 100 rows from the start. */
  const DefaultArgs := QueryArgs("*", None, true, 100, 0, None)

  /** The defaults pass validation, and an `order` given alone sorts descending. */
  lemma DefaultArgsDescending(o: string, allowed: set<string>)
    ensures ValidArgs(DefaultArgs)
    ensures SelectList(DefaultArgs.select, allowed) == Ok("*")
    ensures o in allowed && o != "" ==>
      OrderClause(Some(o), DefaultArgs.desc, allowed) == Ok("ORDER BY " + Quote(o) + " DESC")
  {
  }

  /**
   * The statement for a validated request against `table`, checking the
   * select list, then the filters, then the ORDER BY column.
   */
  function Plan(table: string, args: QueryArgs, params: seq<(string, string)>, allowed: set<string>): (r: Result<Statement, ApiError>)
    ensures SelectList(args.select, allowed).Err? ==> r == Err(SelectList(args.select, allowed).error)
    ensures SelectList(args.select, allowed).Ok? && CompileWhere(params, table, allowed).Err? ==>
      r == Err(CompileWhere(params, table, allowed).error)
    ensures r.Ok? ==>
      && CompileWhere(params, table, allowed).Ok?
      && OrderClause(args.order, args.desc, allowed).Ok?
      && r.value.params == TextParams(WhereValues(CompileWhere(params, table, allowed).value)) + [IntParam(args.limit), IntParam(args.offset)]
    ensures SelectList(args.select, allowed).Ok? && CompileWhere(params, table, allowed).Ok? && OrderClause(args.order, args.desc, allowed).Err? ==>
      r == Err(OrderClause(args.order, args.desc, allowed).error)
    ensures r.Err? ==> Status(r.error) == 400
    ensures SelectList(args.select, allowed).Ok? && CompileWhere(params, table, allowed).Ok? && OrderClause(args.order, args.desc, allowed).Ok? ==>
      && r.Ok?
      && r.value.text == StatementText(
        FinalSelect(SelectList(args.select, allowed).value, args.count), table,
        WhereSql(CompileWhere(params, table, allowed).value), OrderClause(args.order, args.desc, allowed).value)
  {
    var selectList := SelectList(args.select, allowed);
    var where := CompileWhere(params, table, allowed);
    var order := OrderClause(args.order, args.desc, allowed);
    if selectList.Err? then Err(selectList.error)
    else if where.Err? then Err(where.error)
    else if order.Err? then Err(order.error)
    else Ok(Statement(
      StatementText(FinalSelect(selectList.value, args.count), table, WhereSql(where.value), order.value),
      TextParams(WhereValues(where.value)) + [IntParam(args.limit), IntParam(args.offset)]))
  }

  /**
   * The table endpoint: key check, allow-list check, schema lookup, then
   * the statement. A wrong key or table touches neither the cache nor
   * the database. `build_where_clause` looks the schema up a second time,
   * which is a cache hit.
   */
  method Endpoint(cache: SchemaCache, apiKey: string, header: Option<string>, table: string, args: QueryArgs,
                  params: seq<(string, string)>, catalog: Option<seq<CatalogRow>>) returns (r: Result<Statement, ApiError>)
    requires ValidArgs(args)
    modifies cache
    ensures !Authorized(header, apiKey) ==> r == Err(Unauthorized) && cache.entries == old(cache.entries)
    ensures Authorized(header, apiKey) && table !in Tables ==>
      r == Err(TableNotAllowed(table)) && cache.entries == old(cache.entries)
    ensures Authorized(header, apiKey) && table in Tables ==>
      && cache.entries == Stored(old(cache.entries), table, catalog)
      && r == Plan(table, args, params, AllowedColumns(cache.entries[table]))
  {
    if !Authorized(header, apiKey) {
      return Err(Unauthorized);
    }
    var t := TableOr404(table);
    if t.Err? {
      return Err(t.error);
    }
    var columns, _ := cache.GetSchema(table, catalog);
    var allowed := AllowedColumns(columns);
    var selectList := SelectList(args.select, allowed);
    if selectList.Err? {
      return Err(selectList.error);
    }
    var again, probedAgain := cache.GetSchema(table, catalog);
    assert !probedAgain && again == columns;
    var where := BuildWhereClause(params, table, AllowedColumns(again));
    if where.Err? {
      return Err(where.error);
    }
    var order := OrderClause(args.order, args.desc, allowed);
    if order.Err? {
      return Err(order.error);
    }
    var text := StatementText(FinalSelect(selectList.value, args.count), table, where.value.text, order.value);
    r := Ok(Statement(text, TextParams(where.value.values) + [IntParam(args.limit), IntParam(args.offset)]));
  }

  /** `GET /api/meta/schema/{table}`: the cached descriptors of an allowed table. */
  method TableSchema(cache: SchemaCache, apiKey: string, header: Option<string>, table: string,
                     catalog: Option<seq<CatalogRow>>) returns (r: Result<(string, seq<ColumnInfo>), ApiError>)
    modifies cache
    ensures !Authorized(header, apiKey) ==> r == Err(Unauthorized) && cache.entries == old(cache.entries)
    ensures Authorized(header, apiKey) && table !in Tables ==>
      r == Err(TableNotAllowed(table)) && cache.entries == old(cache.entries)
    ensures Authorized(header, apiKey) && table in Tables ==>
      cache.entries == Stored(old(cache.entries), table, catalog) && r == Ok((table, cache.entries[table]))
  {
    if !Authorized(header, apiKey) {
      return Err(Unauthorized);
    }
    var t := TableOr404(table);
    if t.Err? {
      return Err(t.error);
    }
    var columns, _ := cache.GetSchema(t.value, catalog);
    r := Ok((t.value, columns));
  }

  // ------------------------------------------------------------------ lemmas

  /** No allowed table name holds a `%`. */
  lemma TablesHaveNoPercent(table: string)
    requires table in Tables
    ensures '%' !in table
  {
  }

  /** Quoting and joining names without `%` gives a text without `%`. */
  lemma QuotedListNoPercent(cols: seq<string>)
    requires forall c | c in cols :: '%' !in c
    ensures '%' !in JoinWith(QuoteAll(cols), ", ")
  {
    var quoted := QuoteAll(cols);
    forall i | 0 <= i < |quoted|
      ensures '%' !in quoted[i]
    {
      assert cols[i] in cols;
    }
    JoinWithAvoids(quoted, ", ", '%');
  }

  /** `LIMIT %s OFFSET %s` binds the two paging values. */
  lemma PagingPlaceholders(paging: string)
    requires paging == "LIMIT %s OFFSET %s"
    ensures Placeholders(paging) == 2
  {
    var limit, bind, offset := "LIMIT ", "%s", " OFFSET ";
    assert paging == limit + bind + offset + bind;
    NoPercentNoPlaceholders(limit);
    NoPercentNoPlaceholders(offset);
    PlaceholdersConcat(limit, bind);
    PlaceholdersConcat(limit + bind, offset);
    PlaceholdersConcat(limit + bind + offset, bind);
  }

  /** The layout of the statement adds only the two paging placeholders to those of its clauses. */
  lemma StatementTextPlaceholders(finalSelect: string, table: string, where: string, order: string)
    requires '%' !in finalSelect && '%' !in table && '%' !in order
    ensures Placeholders(StatementText(finalSelect, table, where, order)) == Placeholders(where) + 2
  {
    var parts := ["", "SELECT " + finalSelect, "FROM " + Quote(table), where, order, "LIMIT %s OFFSET %s"];
    NoPercentNoPlaceholders("SELECT " + finalSelect);
    NoPercentNoPlaceholders("FROM " + Quote(table));
    NoPercentNoPlaceholders(order);
    PagingPlaceholders(parts[5]);
    assert SumPlaceholders(parts[5..]) == 2;
    assert SumPlaceholders(parts[3..]) == Placeholders(where) + 2 by {
      assert parts[3..][1..] == parts[4..];
      assert parts[4..][1..] == parts[5..];
    }
    assert SumPlaceholders(parts[2..]) == Placeholders(where) + 2 by {
      assert parts[2..][1..] == parts[3..];
    }
    assert SumPlaceholders(parts[1..]) == Placeholders(where) + 2 by {
      assert parts[1..][1..] == parts[2..];
    }
    assert Placeholders(parts[0]) == 0;
    NoPercentNoPlaceholders(Line);
    JoinPlaceholders(parts, Line);
    NoPercentNoPlaceholders("\n        ");
    PlaceholdersConcat(JoinWith(parts, Line), "\n        ");
  }

  /** The select text of a valid plan holds no `%` when no known column does. */
  lemma SelectNoPercent(select: string, count: Option<string>, allowed: set<string>)
    requires forall c | c in allowed :: '%' !in c
    requires SelectList(select, allowed).Ok?
    ensures '%' !in FinalSelect(SelectList(select, allowed).value, count)
  {
    SelectListNoPercent(select, allowed);
    FinalSelectNoPercent(SelectList(select, allowed).value, count);
  }

  lemma SelectListNoPercent(select: string, allowed: set<string>)
    requires forall c | c in allowed :: '%' !in c
    requires SelectList(select, allowed).Ok?
    ensures '%' !in SelectList(select, allowed).value
  {
    if select != "*" {
      QuotedListNoPercent(CommaItems(select));
    }
  }

  lemma FinalSelectNoPercent(selectList: string, count: Option<string>)
    requires '%' !in selectList
    ensures '%' !in FinalSelect(selectList, count)
  {
    assert '%' !in "COUNT(*) OVER() AS full_count,";
  }

  /** The ORDER BY text of a valid plan holds no `%` when no known column does. */
  lemma OrderNoPercent(order: Option<string>, desc: bool, allowed: set<string>)
    requires forall c | c in allowed :: '%' !in c
    requires OrderClause(order, desc, allowed).Ok?
    ensures '%' !in OrderClause(order, desc, allowed).value
  {
    if order.Some? && order.value != "" {
      assert '%' !in Quote(order.value);
      assert '%' !in "ORDER BY " && '%' !in " DESC" && '%' !in " ASC";
    }
  }

  /**
   * The statement holds exactly one `%s` per bound parameter, so the driver
   * can bind them all, provided no table or column name holds a `%`
   * (no allowed table name does: `TablesHaveNoPercent`).
   */
  lemma StatementPlaceholders(table: string, args: QueryArgs, params: seq<(string, string)>, allowed: set<string>)
    requires '%' !in table
    requires forall c | c in allowed :: '%' !in c
    requires Plan(table, args, params, allowed).Ok?
    ensures Placeholders(Plan(table, args, params, allowed).value.text) == |Plan(table, args, params, allowed).value.params|
  {
    var cs := CompileWhere(params, table, allowed).value;
    SelectNoPercent(args.select, args.count, allowed);
    OrderNoPercent(args.order, args.desc, allowed);
    AcceptedConditionsWellFormed(params, table, allowed);
    WherePlaceholders(cs);
    StatementTextPlaceholders(
      FinalSelect(SelectList(args.select, allowed).value, args.count), table, WhereSql(cs),
      OrderClause(args.order, args.desc, allowed).value);
  }
}
