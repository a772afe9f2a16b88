/**
 * The serverless builder handler: it routes on the raw path, reads the
 * key from a configuration that may be missing, and lets a malformed
 * number or a failing schema probe escape as an exception.
 */
module LambdaHandler {
  import opened Wrappers
  import opened Text
  import opened Builder

  /** The path prefix every table route starts with. */
  const Prefix := "/api/"

  /** `path.replace("/api/", "")`: the table name the handler looks up. */
  function TableOf(path: string): string {
    RemoveAll(path, Prefix)
  }

  /**
   * The response to a request. The key check compares the header with the
   * configured key, either of which may be absent.
   */
  function Handle(configured: Option<string>, verb: string, header: Option<string>, path: string, qs: QueryString,
                  entries: map<string, seq<string>>, probe: Probe, execution: Execution): (r: Response)
    requires Decoded(qs)
    ensures verb == "OPTIONS" ==> r == Preflight
    ensures verb != "OPTIONS" && header != configured ==> r == Rejected(401, Unauthorized)
    ensures verb != "OPTIONS" && header == configured && !StartsWith(path, Prefix) ==> r == Rejected(404, NotFound)
    ensures verb != "OPTIONS" && header == configured && StartsWith(path, Prefix) && TableOf(path) !in Tables ==>
      r == Rejected(404, InvalidTable)
    ensures r.Served? ==> header == configured && StartsWith(path, Prefix) && r.table == TableOf(path) && r.table in Tables
    ensures r.Served? ==> LookupResult(entries, TableOf(path), probe).Some?
    ensures r.Served? ==> forall c | c in r.query.calls && IsFilter(c) :: c.column in LookupResult(entries, TableOf(path), probe).GetOr([])
    ensures r == Raised(SchemaProbeFailed) ==> TableOf(path) !in entries && probe.ProbeRaised?
    ensures verb != "OPTIONS" && header == configured && StartsWith(path, Prefix) && TableOf(path) in Tables ==>
      && (PlainOptions(qs).Err? ==> r == Raised(BadInteger(PlainOptions(qs).error)))
      && (PlainOptions(qs).Ok? && LookupResult(entries, TableOf(path), probe).None? ==> r == Raised(SchemaProbeFailed))
      && (PlainOptions(qs).Ok? && LookupResult(entries, TableOf(path), probe).Some? && execution.ExecutionFailed? ==>
            r == Rejected(500, BackendError(execution.message)))
      && (PlainOptions(qs).Ok? && LookupResult(entries, TableOf(path), probe).Some? && execution == Executed ==>
            var opts := PlainOptions(qs).value;
            r == Served(TableOf(path), Chain(TableOf(path), opts, qs, AsSet(LookupResult(entries, TableOf(path), probe).value)),
                        opts.limit, opts.offset))
  {
    if verb == "OPTIONS" then Preflight
    else if header != configured then Rejected(401, Unauthorized)
    else if !StartsWith(path, Prefix) then Rejected(404, NotFound)
    else
      var table := TableOf(path);
      if table !in Tables then Rejected(404, InvalidTable)
      else
        match PlainOptions(qs)
        case Err(text) => Raised(BadInteger(text))
        case Ok(opts) =>
          match LookupResult(entries, table, probe)
          case None => Raised(SchemaProbeFailed)
          case Some(schema) =>
            match execution
            case ExecutionFailed(message) => Rejected(500, BackendError(message))
            case Executed => Served(table, Chain(table, opts, qs, AsSet(schema)), opts.limit, opts.offset)
  }

  /** Only a request that reaches `apply_filters` looks its table's schema up. */
  function CacheAfter(configured: Option<string>, verb: string, header: Option<string>, path: string, qs: QueryString,
                      entries: map<string, seq<string>>, probe: Probe): map<string, seq<string>>
    requires Decoded(qs)
  {
    if verb != "OPTIONS" && header == configured && StartsWith(path, Prefix) && TableOf(path) in Tables && PlainOptions(qs).Ok?
    then AfterLookup(entries, TableOf(path), probe)
    else entries
  }

  /** `handler`. */
  method Handler(cache: ProbeCache, configured: Option<string>, verb: string, header: Option<string>, path: string,
                 qs: QueryString, probe: Probe, execution: Execution) returns (r: Response)
    requires Decoded(qs)
    modifies cache
    ensures r == Handle(configured, verb, header, path, qs, old(cache.entries), probe, execution)
    ensures cache.entries == CacheAfter(configured, verb, header, path, qs, old(cache.entries), probe)
  {
    if verb == "OPTIONS" {
      return Preflight;
    }
    if header != configured {
      return Rejected(401, Unauthorized);
    }
    if !StartsWith(path, Prefix) {
      return Rejected(404, NotFound);
    }
    var table := TableOf(path);
    if table !in Tables {
      return Rejected(404, InvalidTable);
    }
    var select := First(qs, "select").GetOr("*");
    var order := First(qs, "order");
    var desc := DescFlag(qs, "true");
    var limit := IntParam(qs, "limit", "100");
    if limit.Err? {
      return Raised(BadInteger(limit.error));
    }
    var offset := IntParam(qs, "offset", "0");
    if offset.Err? {
      return Raised(BadInteger(offset.error));
    }
    var count := First(qs, "count");
    var opts := Options(select, order, desc, limit.value, offset.value, CountOption(count));
    var schema := cache.GetSchemaRaising(table, probe);
    if schema.None? {
      return Raised(SchemaProbeFailed);
    }
    var q := BuildQuery(table, opts, qs, AsSet(schema.value));
    if execution.ExecutionFailed? {
      return Rejected(500, BackendError(execution.message));
    }
    r := Served(table, q, opts.limit, opts.offset);
  }

  // ------------------------------------------------------------------ lemmas

  /** The route of an ordinary path is the table named after the prefix. */
  lemma PlainPathRouted(table: string)
    requires '/' !in table
    ensures StartsWith(Prefix + table, Prefix)
    ensures TableOf(Prefix + table) == table
  {
    var path := Prefix + table;
    assert path[..|Prefix|] == Prefix;
    assert path[|Prefix|..] == table;
    RemoveAllSkips(table, "", Prefix);
    assert table + "" == table;
  }

  /**
   * Every occurrence of the prefix is removed, not only the leading one:
   * a path with further `/api/` segments still reaches the table.
   */
  lemma RepeatedPrefixRouted(table: string)
    requires '/' !in table
    ensures StartsWith(Prefix + table + Prefix, Prefix)
    ensures TableOf(Prefix + table + Prefix) == table
  {
    var path := Prefix + table + Prefix;
    assert path[..|Prefix|] == Prefix;
    assert path[|Prefix|..] == table + Prefix;
    RemoveAllSkips(table, Prefix, Prefix);
    assert Prefix[|Prefix|..] == "";
    assert RemoveAll(Prefix, Prefix) == RemoveAll("", Prefix);
  }

  /** Without a configured key, a request that sends no key passes the key check. */
  lemma MissingKeyAdmitsAnonymous(verb: string, path: string, qs: QueryString,
                                  entries: map<string, seq<string>>, probe: Probe, execution: Execution)
    requires Decoded(qs) && verb != "OPTIONS"
    ensures Handle(None, verb, None, path, qs, entries, probe, execution) != Rejected(401, Unauthorized)
  {
  }
}
