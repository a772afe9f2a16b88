/**
 * The FastAPI builder handler without a catch-all: a malformed `limit` or
 * `offset` escapes as an exception, `limit` is not capped and the rows
 * are sorted descending unless asked otherwise.
 */
module MainProxy {
  import opened Wrappers
  import opened Text
  import opened Builder

  /**
   * The response to a request on `/api/{table}`; preflight requests have
   * their own route, and the router refuses any other verb but GET with a 405.
   */
  function Handle(apiKey: string, verb: string, header: Option<string>, table: string, qs: QueryString,
                  entries: map<string, seq<string>>, probe: Probe, execution: Execution): (r: Response)
    requires Decoded(qs)
    ensures verb == "OPTIONS" ==> r == Preflight
    ensures verb != "OPTIONS" && verb != "GET" ==> r == Rejected(405, MethodNotAllowed)
    ensures verb == "GET" && header != Some(apiKey) ==> r == Rejected(401, Unauthorized)
    ensures verb == "GET" && header == Some(apiKey) && table !in Tables ==> r == Rejected(404, InvalidTable)
    ensures verb == "GET" && header == Some(apiKey) && table in Tables && PlainOptions(qs).Ok? && execution.ExecutionFailed? ==>
      r == Rejected(500, BackendError(execution.message))
    ensures verb == "GET" && header == Some(apiKey) && table in Tables && PlainOptions(qs).Ok? && execution == Executed ==>
      var opts := PlainOptions(qs).value;
      r == Served(table, Chain(table, opts, qs, AsSet(LookupResult(entries, table, probe).GetOr([]))), opts.limit, opts.offset)
    ensures r.Served? ==> verb == "GET" && header == Some(apiKey) && r.table == table && table in Tables
    ensures r.Served? ==> IntParam(qs, "limit", "100") == Ok(r.limit)
    ensures r.Served? ==> forall c | c in r.query.calls && IsFilter(c) :: c.column in LookupResult(entries, table, probe).GetOr([])
    ensures r.Raised? <==> verb == "GET" && header == Some(apiKey) && table in Tables && PlainOptions(qs).Err?
    ensures r.Raised? ==> r.failure == BadInteger(PlainOptions(qs).error)
    ensures r.Rejected? && r.status == 500 ==> r.failure.BackendError?
  {
    if verb == "OPTIONS" then Preflight
    else if verb != "GET" then Rejected(405, MethodNotAllowed)
    else if header != Some(apiKey) then Rejected(401, Unauthorized)
    else if table !in Tables then Rejected(404, InvalidTable)
    else
      match PlainOptions(qs)
      case Err(text) => Raised(BadInteger(text))
      case Ok(opts) =>
        match execution
        case ExecutionFailed(message) => Rejected(500, BackendError(message))
        case Executed =>
          var schema := LookupResult(entries, table, probe).GetOr([]);
          Served(table, Chain(table, opts, qs, AsSet(schema)), opts.limit, opts.offset)
  }

  /** Only a request that reaches `apply_filters` looks its table's schema up. */
  function CacheAfter(apiKey: string, verb: string, header: Option<string>, table: string, qs: QueryString,
                      entries: map<string, seq<string>>, probe: Probe): map<string, seq<string>>
    requires Decoded(qs)
  {
    if verb == "GET" && header == Some(apiKey) && table in Tables && PlainOptions(qs).Ok?
    then AfterLookup(entries, table, probe)
    else entries
  }

  /** The `options` and `proxy` routes. */
  method Proxy(cache: ProbeCache, apiKey: string, verb: string, header: Option<string>, table: string,
               qs: QueryString, probe: Probe, execution: Execution) returns (r: Response)
    requires Decoded(qs)
    modifies cache
    ensures r == Handle(apiKey, verb, header, table, qs, old(cache.entries), probe, execution)
    ensures cache.entries == CacheAfter(apiKey, verb, header, table, qs, old(cache.entries), probe)
  {
    if verb == "OPTIONS" {
      return Preflight;
    }
    if verb != "GET" {
      return Rejected(405, MethodNotAllowed);
    }
    if header != Some(apiKey) {
      return Rejected(401, Unauthorized);
    }
    if table !in Tables {
      return Rejected(404, InvalidTable);
    }
    var select := First(qs, "select").GetOr("*");
    var order := First(qs, "order");
    var desc := DescFlag(qs, "true");
    var limit := IntParam(qs, "limit", "100");
    if limit.Err? {
      return Raised(BadInteger(limit.error));
    }
    var offset := IntParam(qs, "offset", "0");
    if offset.Err? {
      return Raised(BadInteger(offset.error));
    }
    var count := First(qs, "count");
    var opts := Options(select, order, desc, limit.value, offset.value, CountOption(count));
    var schema := cache.GetSchemaCatching(table, probe);
    var q := BuildQuery(table, opts, qs, AsSet(schema));
    if execution.ExecutionFailed? {
      return Rejected(500, BackendError(execution.message));
    }
    r := Served(table, q, opts.limit, opts.offset);
  }
}
