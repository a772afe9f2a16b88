/**
 * What the three query-builder handlers share: the decoded query string,
 * the chain of calls made on the client's query builder, the filter
 * translation that drops whatever it does not understand, and the
 * write-once schema cache filled from a one-row probe.
 */
module Builder {
  import opened Wrappers
  import opened Text
  import opened Numbers
  import opened Params

  // ------------------------------------------------------------ query string

  /** A query string as `parse_qs` decodes it: keys in first-seen order with their values. */
  type QueryString = seq<(string, seq<string>)>

  /** Every key carries at least one value. */
  predicate Listed(qs: QueryString) {
    forall i | 0 <= i < |qs| :: qs[i].1 != []
  }

  lemma ListedAppend(p: QueryString, q: QueryString)
    requires Listed(p) && Listed(q)
    ensures Listed(p + q)
  {
  }

  /** `parse_qs` output: every key listed once, with at least one value, and blank values dropped. */
  predicate Decoded(qs: QueryString) {
    && Listed(qs)
    && (forall i, v | 0 <= i < |qs| && v in qs[i].1 :: v != "")
    && (forall i, j | 0 <= i < j < |qs| :: qs[i].0 != qs[j].0)
  }

  /** `qs.get(key, [None])[0]`: the first value of `key`, if the key is present. */
  function First(qs: QueryString, key: string): (r: Option<string>)
    requires Listed(qs)
    ensures r.None? <==> forall i | 0 <= i < |qs| :: qs[i].0 != key
    ensures r.Some? ==> exists i | 0 <= i < |qs| :: qs[i].0 == key && r.value == qs[i].1[0]
  {
    if qs == [] then None
    else if qs[0].0 == key then Some(qs[0].1[0])
    else
      var r := First(qs[1..], key);
      assert forall i | 1 <= i < |qs| :: qs[i] == qs[1..][i - 1];
      r
  }

  /** Looking a listed key up yields the first of its own values. */
  lemma FirstOfEntry(qs: QueryString, i: nat)
    requires Decoded(qs) && i < |qs|
    ensures First(qs, qs[i].0) == Some(qs[i].1[0])
  {
    var j :| 0 <= j < |qs| && qs[j].0 == qs[i].0 && First(qs, qs[i].0).value == qs[j].1[0];
    assert i == j;
  }

  /** `int(qs.get(key, [default])[0])`, or the text `int()` refused. */
  function IntParam(qs: QueryString, key: string, default: string): (r: Result<int, string>)
    requires Listed(qs)
    ensures r.Ok? <==> ParseInt(First(qs, key).GetOr(default)).Some?
    ensures r.Ok? ==> Some(r.value) == ParseInt(First(qs, key).GetOr(default))
    ensures r.Err? ==> r.error == First(qs, key).GetOr(default)
  {
    var text := First(qs, key).GetOr(default);
    match ParseInt(text)
    case None => Err(text)
    case Some(n) => Ok(n)
  }

  /** `qs.get("desc", [default])[0].lower() == "true"`. */
  function DescFlag(qs: QueryString, default: string): bool
    requires Listed(qs)
  {
    Lower(First(qs, "desc").GetOr(default)) == "true"
  }

  // ----------------------------------------------------------- builder calls

  /** The `count` argument of `select`: a flag in one handler, the raw option in the others. */
  datatype CountArg = CountFlag(exact: bool) | CountOption(mode: Option<string>)

  /** One call made on the query builder. */
  datatype Call =
    | SelectCall(columns: string, count: CountArg)
    | FilterCall(op: Comparison, column: string, value: string)
    | InCall(column: string, values: seq<string>)
    | OrderCall(column: string, desc: bool)
    | RangeCall(start: int, end: int)

  predicate IsFilter(c: Call) {
    c.FilterCall? || c.InCall?
  }

  /** The query of one table with the calls made on it so far. */
  datatype Query = Query(table: string, calls: seq<Call>) {
    function Then(c: Call): Query {
      Query(table, calls + [c])
    }
  }

  function Emit(c: Option<Call>): seq<Call> {
    if c.Some? then [c.value] else []
  }

  /**
   * The filter one query-string entry adds: none for a reserved key, for a
   * column outside the schema, for `is` or for an unknown operator.
   * `in` takes every comma-separated segment, blanks included.
   */
  function FilterCallFor(key: string, values: seq<string>, schema: set<string>): (r: Option<Call>)
    requires values != []
    ensures IsReserved(key) || SplitKey(key).1 !in schema ==> r == None
    ensures SplitKey(key).0 == "is" || ParseOperator(SplitKey(key).0).None? ==> r == None
    ensures r.Some? ==>
      && !IsReserved(key)
      && IsFilter(r.value)
      && r.value.column == SplitKey(key).1
      && r.value.column in schema
    ensures r.Some? && r.value.FilterCall? ==>
      ParseOperator(SplitKey(key).0) == Some(Cmp(r.value.op)) && r.value.value == values[0]
    ensures r.Some? && r.value.InCall? ==>
      SplitKey(key).0 == "in" && JoinWith(r.value.values, ",") == values[0]
    ensures !IsReserved(key) && SplitKey(key).1 in schema && ParseOperator(SplitKey(key).0).Some? && ParseOperator(SplitKey(key).0).value.Cmp? ==>
      r == Some(FilterCall(ParseOperator(SplitKey(key).0).value.cmp, SplitKey(key).1, values[0]))
    ensures !IsReserved(key) && SplitKey(key).1 in schema && SplitKey(key).0 == "in" ==>
      r == Some(InCall(SplitKey(key).1, Split(values[0], ',')))
  {
    if IsReserved(key) then None
    else
      var (op, col) := SplitKey(key);
      if col !in schema then None
      else
        var v := values[0];
        match ParseOperator(op)
        case Some(Cmp(c)) => Some(FilterCall(c, col, v))
        case Some(In) => JoinSplit(v, ','); Some(InCall(col, Split(v, ',')))
        case _ => None
  }

  /** The filters the entries add, in query-string order. */
  function FilterCalls(qs: QueryString, schema: set<string>): (calls: seq<Call>)
    requires Listed(qs)
    ensures forall c | c in calls :: IsFilter(c) && c.column in schema
    ensures |calls| <= |qs|
    ensures schema == {} ==> calls == []
  {
    if qs == [] then []
    else
      var init := qs[..|qs| - 1];
      var (key, values) := qs[|qs| - 1];
      FilterCalls(init, schema) + Emit(FilterCallFor(key, values, schema))
  }

  /** The filters of two runs of entries are those of each run, one after the other. */
  lemma {:induction false} FilterCallsAppend(p: QueryString, q: QueryString, schema: set<string>)
    requires Listed(p)
    requires Listed(q)
    ensures FilterCalls(p + q, schema) == FilterCalls(p, schema) + FilterCalls(q, schema)
    decreases |q|
  {
    if q == [] {
      assert p + q == p;
    } else {
      var init := q[..|q| - 1];
      assert (p + q)[..|p + q| - 1] == p + init;
      assert (p + q)[|p + q| - 1] == q[|q| - 1];
      FilterCallsAppend(p, init, schema);
    }
  }

  /**
   * An entry that adds no filter (a reserved key, a column outside the
   * schema, `is`, an unknown operator) can be dropped from anywhere in the
   * query string without changing the filters.
   */
  lemma IgnoredEntryIrrelevant(p: QueryString, key: string, values: seq<string>, q: QueryString, schema: set<string>)
    requires Listed(p)
    requires Listed(q)
    requires values != [] && FilterCallFor(key, values, schema).None?
    ensures FilterCalls(p + [(key, values)] + q, schema) == FilterCalls(p + q, schema)
  {
    var entry: QueryString := [(key, values)];
    var pe := p + entry;
    ListedAppend(p, entry);
    ListedAppend(pe, q);
    ListedAppend(p, q);
    SingleEntryFilters(key, values, schema);
    assert Emit(FilterCallFor(key, values, schema)) == [];
    FilterCallsAppend(p, entry, schema);
    var fp := FilterCalls(p, schema);
    assert fp + [] == fp;
    FilterCallsAppend(pe, q, schema);
    FilterCallsAppend(p, q, schema);
    assert p + [(key, values)] + q == pe + q;
  }

  lemma SingleEntryFilters(key: string, values: seq<string>, schema: set<string>)
    requires values != []
    ensures FilterCalls([(key, values)], schema) == Emit(FilterCallFor(key, values, schema))
  {
    var entry: QueryString := [(key, values)];
    assert entry[..0] == [];
  }

  /** One iteration of `apply_filters`: the chain of operator tests. */
  method FilterStep(query: Query, key: string, values: seq<string>, schema: set<string>) returns (q: Query)
    requires values != []
    ensures q == Query(query.table, query.calls + Emit(FilterCallFor(key, values, schema)))
  {
    q := query;
    if IsReserved(key) {
      return;
    }
    var (op, col) := SplitKey(key);
    if col !in schema {
      return;
    }
    var v := values[0];
    if op == "eq" { q := q.Then(FilterCall(Eq, col, v)); }
    else if op == "ne" { q := q.Then(FilterCall(Ne, col, v)); }
    else if op == "gt" { q := q.Then(FilterCall(Gt, col, v)); }
    else if op == "gte" { q := q.Then(FilterCall(Gte, col, v)); }
    else if op == "lt" { q := q.Then(FilterCall(Lt, col, v)); }
    else if op == "lte" { q := q.Then(FilterCall(Lte, col, v)); }
    else if op == "like" { q := q.Then(FilterCall(Like, col, v)); }
    else if op == "ilike" { q := q.Then(FilterCall(Ilike, col, v)); }
    else if op == "in" { q := q.Then(InCall(col, Split(v, ','))); }
  }

  /** `apply_filters` on the schema `get_schema` returned, as a set. */
  method ApplyFilters(query: Query, qs: QueryString, schema: set<string>) returns (q: Query)
    requires Listed(qs)
    ensures q == Query(query.table, query.calls + FilterCalls(qs, schema))
  {
    q := query;
    for i := 0 to |qs|
      invariant q == Query(query.table, query.calls + FilterCalls(qs[..i], schema))
    {
      var (key, values) := qs[i];
      assert qs[..i + 1][..i] == qs[..i];
      q := FilterStep(q, key, values, schema);
    }
    assert qs[..|qs|] == qs;
  }

  /** Row `i` lies within the inclusive bounds of a range call. */
  predicate InRange(c: Call, i: int)
    requires c.RangeCall?
  {
    c.start <= i <= c.end
  }

  /** `range(offset, offset + limit - 1)`: exactly the rows offset, ..., offset + limit - 1. */
  function RangeFor(offset: int, limit: int): (c: Call)
    ensures c.RangeCall?
    ensures forall i :: InRange(c, i) <==> offset <= i < offset + limit
  {
    RangeCall(offset, offset + limit - 1)
  }

  /** The options a handler reads from the query string. */
  datatype Options = Options(select: string, order: Option<string>, desc: bool, limit: int, offset: int, count: CountArg)

  /** The largest `limit` the capping handler lets through. */
  const MaxLimit := 1000

  function Min(a: int, b: int): int {
    if a <= b then a else b
  }

  /**
   * The options of the handler that caps `limit` (at 1000, with no lower
   * bound), sorts ascending by default and asks for an exact count only
   * for `count=True`; or the text `int()` refused, `limit` being parsed
   * first.
   */
  function CappedOptions(qs: QueryString): (r: Result<Options, string>)
    requires Listed(qs)
    ensures r.Err? <==> IntParam(qs, "limit", "100").Err? || IntParam(qs, "offset", "0").Err?
    ensures IntParam(qs, "limit", "100").Err? ==> r == Err(IntParam(qs, "limit", "100").error)
    ensures r.Ok? ==> r.value.limit == Min(IntParam(qs, "limit", "100").value, MaxLimit) <= MaxLimit
    ensures r.Ok? ==> r.value.offset == IntParam(qs, "offset", "0").value
    ensures r.Ok? ==> r.value.select == First(qs, "select").GetOr("*") && r.value.order == First(qs, "order")
    ensures r.Ok? ==> r.value.desc == DescFlag(qs, "false")
    ensures r.Ok? ==> r.value.count == CountFlag(First(qs, "count") == Some("True"))
  {
    var limit := IntParam(qs, "limit", "100");
    var offset := IntParam(qs, "offset", "0");
    if limit.Err? then Err(limit.error)
    else if offset.Err? then Err(offset.error)
    else
      Ok(Options(First(qs, "select").GetOr("*"), First(qs, "order"), DescFlag(qs, "false"),
                 Min(limit.value, MaxLimit), offset.value, CountFlag(First(qs, "count").GetOr("None") == "True")))
  }

  /**
   * The options of the handlers that take `limit` as given, sort
   * descending by default and pass `count` through.
   */
  function PlainOptions(qs: QueryString): (r: Result<Options, string>)
    requires Listed(qs)
    ensures r.Err? <==> IntParam(qs, "limit", "100").Err? || IntParam(qs, "offset", "0").Err?
    ensures IntParam(qs, "limit", "100").Err? ==> r == Err(IntParam(qs, "limit", "100").error)
    ensures r.Ok? ==> r.value.limit == IntParam(qs, "limit", "100").value
    ensures r.Ok? ==> r.value.offset == IntParam(qs, "offset", "0").value
    ensures r.Ok? ==> r.value.select == First(qs, "select").GetOr("*") && r.value.order == First(qs, "order")
    ensures r.Ok? ==> r.value.desc == DescFlag(qs, "true")
    ensures r.Ok? ==> r.value.count == CountOption(First(qs, "count"))
  {
    var limit := IntParam(qs, "limit", "100");
    var offset := IntParam(qs, "offset", "0");
    if limit.Err? then Err(limit.error)
    else if offset.Err? then Err(offset.error)
    else
      Ok(Options(First(qs, "select").GetOr("*"), First(qs, "order"), DescFlag(qs, "true"),
                 limit.value, offset.value, CountOption(First(qs, "count"))))
  }

  /** Without `desc` the capping handler sorts ascending and the others descending. */
  lemma DefaultDirections(qs: QueryString)
    requires Listed(qs) && First(qs, "desc").None?
    ensures CappedOptions(qs).Ok? ==> !CappedOptions(qs).value.desc
    ensures PlainOptions(qs).Ok? ==> PlainOptions(qs).value.desc
  {
    assert Lower("true") == "true";
  }

  /** `if order:`: an absent or empty `order` adds no ordering. */
  predicate Ordered(opts: Options) {
    opts.order.Some? && opts.order.value != ""
  }

  /** The names every handler file allows, in the same order in each. */
  const Tables: seq<string> := [
    "account", "account_route", "customer", "destination", "domestic",
    "domestic_packing", "feedback", "order_links", "order_process_log",
    "orders", "packing", "payment", "payment_orders", "product_type",
    "purchases", "route", "shipment_tracking", "staff", "warehouse",
    "warehouse_location", "websites"
  ]

  /** The whole chain: select, the filters, the ordering if asked for, then the row range. */
  function Chain(table: string, opts: Options, qs: QueryString, schema: set<string>): (q: Query)
    requires Listed(qs)
    ensures q.table == table && |q.calls| >= 2
    ensures q.calls[0] == SelectCall(opts.select, opts.count)
    ensures q.calls[|q.calls| - 1] == RangeFor(opts.offset, opts.limit)
    ensures forall c | c in q.calls && IsFilter(c) :: c.column in schema
  {
    var filters := FilterCalls(qs, schema);
    var order := if Ordered(opts) then [OrderCall(opts.order.value, opts.desc)] else [];
    Query(table, [SelectCall(opts.select, opts.count)] + filters + order + [RangeFor(opts.offset, opts.limit)])
  }

  /**
   * The calls in order: the select, then exactly the filter calls of the
   * query string, then the ordering when one was asked for, then the range.
   */
  lemma ChainLayout(table: string, opts: Options, qs: QueryString, schema: set<string>)
    requires Listed(qs)
    ensures var calls := Chain(table, opts, qs, schema).calls;
      && |calls| == 2 + |FilterCalls(qs, schema)| + (if Ordered(opts) then 1 else 0)
      && calls[1..1 + |FilterCalls(qs, schema)|] == FilterCalls(qs, schema)
      && (Ordered(opts) ==> calls[|calls| - 2] == OrderCall(opts.order.value, opts.desc))
  {
    var filters := FilterCalls(qs, schema);
    var head := [SelectCall(opts.select, opts.count)] + filters;
    assert head[1..] == filters;
  }

  /** The chain orders its rows exactly when the request asked for an ordering. */
  lemma ChainOrderedIffAsked(table: string, opts: Options, qs: QueryString, schema: set<string>)
    requires Listed(qs)
    ensures (exists c | c in Chain(table, opts, qs, schema).calls :: c.OrderCall?) <==> Ordered(opts)
  {
    var calls := Chain(table, opts, qs, schema).calls;
    var filters := FilterCalls(qs, schema);
    if Ordered(opts) {
      assert calls[1 + |filters|].OrderCall?;
    } else {
      assert forall c | c in calls :: c in [SelectCall(opts.select, opts.count)] || c in filters || c.RangeCall?;
    }
  }

  /** The handlers' builder statements: select, `apply_filters`, order, range. */
  method BuildQuery(table: string, opts: Options, qs: QueryString, schema: set<string>) returns (q: Query)
    requires Listed(qs)
    ensures q == Chain(table, opts, qs, schema)
  {
    q := Query(table, [SelectCall(opts.select, opts.count)]);
    q := ApplyFilters(q, qs, schema);
    if opts.order.Some? && opts.order.value != "" {
      q := q.Then(OrderCall(opts.order.value, opts.desc));
    }
    q := q.Then(RangeFor(opts.offset, opts.limit));
  }

  // ------------------------------------------------------------ schema cache

  /** What the one-row probe `select("*").limit(1)` gave: the key lists of its rows, or an exception. */
  datatype Probe = ProbeRaised | ProbeRows(rows: seq<seq<string>>)

  /** `list(row.keys())` of the first row, `[]` for an empty table; `None` when the probe raised. */
  function ProbeSchema(probe: Probe): Option<seq<string>> {
    match probe
    case ProbeRaised => None
    case ProbeRows(rows) => Some(if rows == [] then [] else rows[0])
  }

  /** The cache after a lookup: a successful probe is stored, a raising one is not. */
  function AfterLookup(entries: map<string, seq<string>>, table: string, probe: Probe): (m: map<string, seq<string>>)
    ensures forall t | t in entries :: t in m && m[t] == entries[t]
    ensures table in m <==> table in entries || probe.ProbeRows?
    ensures forall t | t in m && t != table :: t in entries
  {
    if table in entries || probe.ProbeRaised? then entries
    else entries[table := ProbeSchema(probe).value]
  }

  /** The schema a lookup yields: the stored one, else the probe's, else `None` when the probe raised. */
  function LookupResult(entries: map<string, seq<string>>, table: string, probe: Probe): (r: Option<seq<string>>)
    ensures table in entries ==> r == Some(entries[table])
    ensures r.None? <==> table !in entries && probe.ProbeRaised?
    ensures r.Some? ==> table in AfterLookup(entries, table, probe) && AfterLookup(entries, table, probe)[table] == r.value
  {
    if table in entries then Some(entries[table]) else ProbeSchema(probe)
  }

  /** `SCHEMA_CACHE` with the two `get_schema` variants. */
  class ProbeCache {
    var entries: map<string, seq<string>>

    constructor ()
      ensures entries == map[]
    {
      entries := map[];
    }

    /** The catching `get_schema`: a raising probe yields `[]` and is not stored. */
    method GetSchemaCatching(table: string, probe: Probe) returns (schema: seq<string>)
      modifies this
      ensures entries == AfterLookup(old(entries), table, probe)
      ensures schema == LookupResult(old(entries), table, probe).GetOr([])
    {
      if table in entries {
        return entries[table];
      }
      match probe
      case ProbeRaised =>
        schema := [];
      case ProbeRows(rows) =>
        schema := if rows == [] then [] else rows[0];
        entries := entries[table := schema];
    }

    /** The `get_schema` without a handler: a raising probe propagates (`None`). */
    method GetSchemaRaising(table: string, probe: Probe) returns (schema: Option<seq<string>>)
      modifies this
      ensures entries == AfterLookup(old(entries), table, probe)
      ensures schema == LookupResult(old(entries), table, probe)
    {
      if table in entries {
        return Some(entries[table]);
      }
      match probe
      case ProbeRaised =>
        schema := None;
      case ProbeRows(rows) =>
        var keys := if rows == [] then [] else rows[0];
        entries := entries[table := keys];
        schema := Some(keys);
    }
  }

  /** Once a lookup has produced a schema, every later lookup of that table returns it, whatever the probe would give. */
  lemma SchemaWriteOnce(entries: map<string, seq<string>>, table: string, first: Probe, later: Probe)
    requires LookupResult(entries, table, first).Some?
    ensures LookupResult(AfterLookup(entries, table, first), table, later) == LookupResult(entries, table, first)
  {
  }

  /** A probe that raised leaves nothing behind: the next lookup probes again. */
  lemma RaisingProbeRetried(entries: map<string, seq<string>>, table: string, later: Probe)
    requires table !in entries
    ensures LookupResult(AfterLookup(entries, table, ProbeRaised), table, later) == ProbeSchema(later)
  {
  }

  /** `set(schema)`. */
  function AsSet(schema: seq<string>): (s: set<string>)
    ensures forall c :: c in s <==> c in schema
  {
    set c | c in schema
  }

  // -------------------------------------------------------------- responses

  /** Why a request was not served. */
  datatype Failure =
    | Unauthorized
    | MethodNotAllowed
    | InvalidTable
    | NotFound
    | BadInteger(text: string)
    | SchemaProbeFailed
    | BackendError(message: string)

  /** The outcome of running the built query: the rows came back, or the client raised. */
  datatype Execution = Executed | ExecutionFailed(message: string)

  /** What a handler does with a request. */
  datatype Response =
    | Preflight
      // an error response the handler itself returns
    | Rejected(status: int, failure: Failure)
      // an exception escapes the handler and the hosting runtime answers
    | Raised(failure: Failure)
    | Served(table: string, query: Query, limit: int, offset: int)
}
