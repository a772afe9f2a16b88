/**
 * The FastAPI builder handler that turns every unexpected failure into a
 * 500 and caps `limit` at 1000.
 */
module IndexProxy {
  import opened Wrappers
  import opened Text
  import opened Numbers
  import opened Builder

  /**
   * The response to a request on `/api/{table}`. Preflight requests are
   * answered by the catch-all OPTIONS route registered first, and the
   * router refuses any verb but GET with a 405 before the handler runs; a failing
   * `int()` or query execution is caught and answered with a 500.
   */
  function Handle(apiKey: string, verb: string, header: Option<string>, table: string, qs: QueryString,
                  entries: map<string, seq<string>>, probe: Probe, execution: Execution): (r: Response)
    requires Decoded(qs)
    ensures verb == "OPTIONS" ==> r == Preflight
    ensures verb != "OPTIONS" && verb != "GET" ==> r == Rejected(405, MethodNotAllowed)
    ensures verb == "GET" && header != Some(apiKey) ==> r == Rejected(401, Unauthorized)
    ensures verb == "GET" && header == Some(apiKey) && table !in Tables ==> r == Rejected(404, InvalidTable)
    ensures verb == "GET" && header == Some(apiKey) && table in Tables && CappedOptions(qs).Err? ==> r == Rejected(500, BadInteger(CappedOptions(qs).error))
    ensures verb == "GET" && header == Some(apiKey) && table in Tables && CappedOptions(qs).Ok? && execution.ExecutionFailed? ==>
      r == Rejected(500, BackendError(execution.message))
    ensures verb == "GET" && header == Some(apiKey) && table in Tables && CappedOptions(qs).Ok? && execution == Executed ==>
      var opts := CappedOptions(qs).value;
      r == Served(table, Chain(table, opts, qs, AsSet(LookupResult(entries, table, probe).GetOr([]))), opts.limit, opts.offset)
    ensures r.Served? ==> verb == "GET" && header == Some(apiKey) && r.table == table && table in Tables && r.limit <= MaxLimit
    ensures r.Served? ==> forall c | c in r.query.calls && IsFilter(c) :: c.column in LookupResult(entries, table, probe).GetOr([])
    ensures r.Rejected? && r.status == 500 ==> r.failure.BadInteger? || r.failure.BackendError?
    ensures !r.Raised?
  {
    if verb == "OPTIONS" then Preflight
    else if verb != "GET" then Rejected(405, MethodNotAllowed)
    else if header != Some(apiKey) then Rejected(401, Unauthorized)
    else if table !in Tables then Rejected(404, InvalidTable)
    else
      match CappedOptions(qs)
      case Err(text) => Rejected(500, BadInteger(text))
      case Ok(opts) =>
        match execution
        case ExecutionFailed(message) => Rejected(500, BackendError(message))
        case Executed =>
          var schema := LookupResult(entries, table, probe).GetOr([]);
          Served(table, Chain(table, opts, qs, AsSet(schema)), opts.limit, opts.offset)
  }

  /** Only a request that reaches `apply_filters` looks its table's schema up. */
  function CacheAfter(apiKey: string, verb: string, header: Option<string>, table: string, qs: QueryString,
                      entries: map<string, seq<string>>, probe: Probe): map<string, seq<string>>
    requires Decoded(qs)
  {
    if verb == "GET" && header == Some(apiKey) && table in Tables && CappedOptions(qs).Ok?
    then AfterLookup(entries, table, probe)
    else entries
  }

  /** `proxy`. */
  method Proxy(cache: ProbeCache, apiKey: string, verb: string, header: Option<string>, table: string,
               qs: QueryString, probe: Probe, execution: Execution) returns (r: Response)
    requires Decoded(qs)
    modifies cache
    ensures r == Handle(apiKey, verb, header, table, qs, old(cache.entries), probe, execution)
    ensures cache.entries == CacheAfter(apiKey, verb, header, table, qs, old(cache.entries), probe)
  {
    if verb == "OPTIONS" {
      return Preflight;
    }
    if verb != "GET" {
      return Rejected(405, MethodNotAllowed);
    }
    if header != Some(apiKey) {
      return Rejected(401, Unauthorized);
    }
    if table !in Tables {
      return Rejected(404, InvalidTable);
    }
    var select := First(qs, "select").GetOr("*");
    var order := First(qs, "order");
    var desc := DescFlag(qs, "false");
    var limit := IntParam(qs, "limit", "100");
    if limit.Err? {
      return Rejected(500, BadInteger(limit.error));
    }
    var offset := IntParam(qs, "offset", "0");
    if offset.Err? {
      return Rejected(500, BadInteger(offset.error));
    }
    var count := First(qs, "count").GetOr("None");
    var opts := Options(select, order, desc, Min(limit.value, MaxLimit), offset.value, CountFlag(count == "True"));
    var schema := cache.GetSchemaCatching(table, probe);
    var q := BuildQuery(table, opts, qs, AsSet(schema));
    if execution.ExecutionFailed? {
      return Rejected(500, BackendError(execution.message));
    }
    r := Served(table, q, opts.limit, opts.offset);
  }

  /** `limit=0` passes the cap untouched: nothing clamps it from below. */
  lemma ZeroLimitOptions()
    ensures CappedOptions([("limit", ["0"])]).Ok?
    ensures CappedOptions([("limit", ["0"])]).value.limit == 0
  {
    var zero := IntText(0);
    assert zero == "0";
    ParseIntText(0);
    var qs: QueryString := [("limit", [zero])];
    assert First(qs, "limit") == Some(zero);
    assert First(qs, "offset") == None;
  }

  /**
   * A request whose `limit` parses to 0 (as `limit=0` does) is served with
   * the inverted range `range(offset, offset - 1)`, which names no row.
   */
  lemma ZeroLimitServed(apiKey: string, table: string, qs: QueryString, entries: map<string, seq<string>>, probe: Probe)
    requires Decoded(qs) && table in Tables
    requires CappedOptions(qs).Ok? && CappedOptions(qs).value.limit == 0
    ensures Handle(apiKey, "GET", Some(apiKey), table, qs, entries, probe, Executed).Served?
    ensures Handle(apiKey, "GET", Some(apiKey), table, qs, entries, probe, Executed).limit == 0
    ensures var calls := Handle(apiKey, "GET", Some(apiKey), table, qs, entries, probe, Executed).query.calls;
      && calls[|calls| - 1].RangeCall?
      && calls[|calls| - 1].end < calls[|calls| - 1].start
  {
  }
}
