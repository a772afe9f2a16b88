# Query translation of the Supabase table API

This project models the part of the Supabase table API that turns a URL
query string into a database query. It covers two ways of doing that.

The **direct-SQL gateway** (`supabase_api.py`) checks the `X-API-Key`
header and the table allow-list. It then looks the table's columns up in a
process-wide schema cache. The cache is filled from
`information_schema.columns` on a miss, and a failed lookup is stored as
"no columns". Each filter parameter `op__column=value` (a bare `column`
means `eq`) is compiled into a `"column" <op> %s` condition. The
statement's text only ever contains quoted column names and `%s`
placeholders. A filter on an unknown column, an `is` value other than
null/true/false, an unknown select column or an unknown ORDER BY column
rejects the request with HTTP 400.

The **query-builder handlers** (`api/index.py`, `api/main.py`,
`api/supabase.py`) decode the query string with `parse_qs`. They make a
chain of calls on the Supabase client's query builder: `select`, one
filter call per understood parameter, `order` when asked for, then
`range(offset, offset + limit - 1)`. Their schema is the key list of one
probed row. Whatever they do not understand they drop silently:
- an unknown column;
- the `is` operator;
- an unknown operator.

The three handlers differ in several ways:
- their default sort direction;
- whether `limit` is capped;
- what happens when `int()` fails;
- how routing is done;
- whether a failing schema probe is caught.

Modules:

- `Wrappers`: `Option` and `Result`.
- `Text`: the string operations the code relies on. These are `strip`, `split`, `join`, ASCII `lower`, `find` and `replace`, and a count of `%s` placeholders.
- `Numbers`: Python's `int()` on a query-string value, and `str()` as its inverse.
- `Params`: the reserved keys, `key.split("__", 1)`, and the operator names.
- `SqlWhere`: `build_where_clause`. A functional specification (`CompileWhere`) is followed by the loop that implements it (`BuildWhereClause`).
- `SqlGateway`: the gateway's schema cache (a class), the select list, ORDER BY, the statement, and the endpoint method.
- `Builder`: the shared parts of the builder handlers. These are `parse_qs` lookups, the filter translation with `apply_filters` as a loop, the options, the call chain, and the write-once probe cache (a class).
- `IndexProxy`, `MainProxy`, `LambdaHandler`: one handler each. Each has a response function and the handler method that is proved to match it.
- `Variants`, `Scenario`: lemmas that compare the two translation paths on the same request.

How the two paths behave at their edges:

- **Empty schema.** The gateway rejects every filter (`SqlWhere.EmptySchemaFailsClosed`). The builder handlers drop every filter (`Builder.FilterCalls`, third ensures).
- **Unknown operators.** Both paths ignore the parameter when the column is known (`SqlWhere.CompileParam`, fourth ensures; `Builder.FilterCallFor`). On an unknown column the gateway still answers 400, because it checks the column before the operator (`SqlWhere.CompileParam`, second ensures).
- **Blank `in` segments.** The gateway drops blank segments of an `in` list. The builders pass every raw segment (`Variants.InListDivergence`).
- **`limit`.**
  - In the gateway the framework rejects values outside `[1, 1000]` before the handler runs (`SqlGateway.ValidArgs`).
  - `api/index.py` only applies `min(limit, 1000)`, so `limit=0` or a negative value passes (`IndexProxy.ZeroLimitServed`).
  - `api/main.py` and `api/supabase.py` do not cap at all.
- **Default sort direction.** The gateway sorts descending unless `desc=false` is given (`SqlGateway.DefaultArgsDescending`). Among the builder handlers, only `api/index.py` sorts ascending by default; `api/main.py` and `api/supabase.py` sort descending (`Builder.DefaultDirections`).
- **Failed schema probe.**
  - The gateway caches the empty list.
  - `api/index.py` and `api/main.py` return `[]` without storing it.
  - `api/supabase.py` lets the exception escape, and also stores nothing (`Builder.ProbeCache`).
- **HTTP verbs.** The two FastAPI apps answer `OPTIONS` with the preflight response and refuse every verb but `GET` with 405 (`IndexProxy.Handle`, `MainProxy.Handle`). The bare handler in `api/supabase.py` serves any verb other than `OPTIONS` as a read (`LambdaHandler.Handle`).

## Model

| member | source | states |
|---|---|---|
| Params.SplitKey | supabase_api.py:109-112 | a key without `__` is `("eq", key)`; otherwise the key is `op + "__" + col` with the split at the first `__` |
| Params.SplitKeyOfJoined | api/index.py:59-62 | `op__col` splits back into `op` and `col` whenever `op` followed by `_` holds no `__` |
| Params.SplitKeyOfOperator | api/main.py:48-51 | an operator without underscores is split back off its column exactly |
| Params.DefaultOperatorIsEq | supabase_api.py:109-112 | a bare column key is the same filter as `eq__column` |
| Params.UnderscoreNotReserved | supabase_api.py:104 | no reserved key contains `_`, so no `op__col` key is reserved |
| Params.ParseOperator | supabase_api.py:117-157 | an operator is recognised exactly when its name is one of the ten the chain tests, and the recognised operator has that name |
| Params.ParseOperatorName | api/index.py:67-75 | every operator is recognised from its own name (round trip) |
| Numbers.ParseInt | api/index.py:102-103 | `int()` refuses blank text and whitespace it does not skip (U+001C to U+001F), and otherwise accepts exactly an optional sign followed by digits grouped by single underscores; the sign decides the sign of the result |
| Numbers.ParseSigned | api/index.py:102-103 | a signed number with nothing around it is accepted exactly when a sign is followed by grouped digits, and the sign decides the sign of the result |
| Numbers.PaddedIntText | api/main.py:96-97 | `int()` reads `str(n)` back as `n` through any padding of the whitespace it skips |
| Numbers.SkippablePadding | api/main.py:96-97 | padding of skippable whitespace is what `strip()` removes and passes the padding check |
| Numbers.SeparatorRefused | api/index.py:102-103 | a text that starts with an information separator (U+001C to U+001F) is refused |
| Numbers.NatText | api/main.py:96-97 | the decimal text of a number is well-formed digits whose value is that number |
| Numbers.ParseIntText | api/main.py:96-97 | `int(str(n)) == n` for every integer |
| Text.Strip | supabase_api.py:142 | the result has no whitespace at either end, is empty exactly when the text is all whitespace, and keeps only characters of the text |
| Text.StripSplitsText | supabase_api.py:142 | every text is its leading whitespace, then its stripped core, then trailing whitespace |
| Text.StripPadded | supabase_api.py:142 | whitespace around a text without whitespace at its ends is exactly what `strip()` removes |
| Text.Split | api/index.py:75 | `split` yields at least one part and no part contains the separator |
| Text.JoinSplit | api/supabase.py:57 | joining the parts of a split with the separator gives back the text |
| Text.SplitJoin | api/supabase.py:57 | splitting a join of separator-free parts gives back the parts |
| Text.CommaItems | supabase_api.py:227 | the items are non-empty, stripped, comma-free, and no more than the comma segments |
| Text.CommaItemsCons | supabase_api.py:142 | the items of `p + "," + t` for a comma-free `p` are the stripped `p` (when it is not blank) followed by the items of `t` |
| Text.CommaItemsSegment | supabase_api.py:142 | a comma-free segment gives its stripped text as one item, or nothing when it is blank |
| Text.CommaItemsRoundTrip | supabase_api.py:142 | the items of a comma-join of clean items are those items |
| Text.StripNonBlankDropsBlank | supabase_api.py:142 | a blank segment makes the item list strictly shorter than the segment list |
| Text.Lower | supabase_api.py:149 | lower-casing keeps the length and maps each character |
| Text.IndexOf | supabase_api.py:109-110 | the result is the first occurrence, and `None` means there is no occurrence |
| Text.RemoveAllSkips | api/supabase.py:87 | a leading text that cannot start the pattern passes through `replace` unchanged |
| Text.RemoveAllAbsent | api/supabase.py:87 | `replace` leaves a text without the pattern unchanged |
| Text.PlaceholdersConcat | supabase_api.py:249-255 | placeholders of a concatenation add up when no `%s` straddles the seam |
| Text.JoinPlaceholders | supabase_api.py:159 | a join holds the placeholders of its parts, the separator adding none |
| SqlWhere.CompileParam | supabase_api.py:105-157 | a reserved key or empty value adds nothing; an unknown column is a 400 naming it; an unknown operator adds nothing; a condition names the parsed column, a known column, and binds only non-empty values; otherwise the result is the operator's condition on the split key |
| SqlWhere.OperatorCondition | supabase_api.py:117-157 | a comparison operator gives that comparison on the raw value; `in` adds nothing exactly when the stripped comma items are empty, and otherwise an IN list of those items; `is` gives IS NULL/TRUE/FALSE by the lower-cased value and fails exactly when it is none of those; an unknown operator adds nothing |
| SqlWhere.CompileWhere | supabase_api.py:99-160 | a rejected request carries a 400 error, either an unknown column of this table or a bad `is` value |
| SqlWhere.ParamCondition | supabase_api.py:105-116 | one loop iteration emits the text and the values of the parameter's compiled condition, or its error |
| SqlWhere.OperatorText | supabase_api.py:117-157 | the `if op == ...` chain emits the text and values of `OperatorCondition` |
| SqlWhere.BuildWhereClause | supabase_api.py:99-160 | the loop returns the first parameter error, or the WHERE text and bound values of the compiled conditions |
| SqlWhere.ErrorPersists | supabase_api.py:114-115 | once a prefix of the parameters is rejected, the whole request is rejected with that error |
| SqlWhere.InertParamIgnored | supabase_api.py:106-107 | a reserved or empty parameter can be removed from anywhere without changing the result |
| SqlWhere.UnknownColumnRejected | supabase_api.py:114-115 | a filter on a column outside the schema rejects the request wherever it appears |
| SqlWhere.EmptySchemaFailsClosed | supabase_api.py:100-115 | with no known columns, any filter rejects the request |
| SqlWhere.AcceptedIffEachAccepted | supabase_api.py:105-157 | the request is accepted exactly when every parameter is accepted on its own |
| SqlWhere.AcceptedConditionsWellFormed | supabase_api.py:114-147 | every condition of an accepted request names a known column and binds only non-empty values |
| SqlWhere.WhereValuesNonEmpty | supabase_api.py:106 | no bound value of those conditions is empty |
| SqlWhere.PlaceholderListCount | supabase_api.py:145 | `", ".join(["%s"] * n)` holds exactly n placeholders |
| SqlWhere.PredicatePlaceholders | supabase_api.py:117-155 | each predicate text holds one placeholder per value it binds |
| SqlWhere.ConditionPlaceholders | supabase_api.py:118-155 | a condition on a `%`-free column holds one placeholder per bound value |
| SqlWhere.WherePlaceholders | supabase_api.py:159-160 | the WHERE text holds exactly as many placeholders as there are values to bind |
| SqlWhere.WhereSqlIgnoresOperands | supabase_api.py:117-159 | the WHERE text is the same for any operands of the same shape: no operand is written into it |
| SqlGateway.TableOr404 | supabase_api.py:60-63 | a table is accepted exactly when it is on the allow-list; otherwise a 404 naming it |
| SqlGateway.ListTables | supabase_api.py:197-200 | the allow-list and its size are returned exactly to a caller whose key matches; otherwise a 401 |
| SqlGateway.FetchSchema | supabase_api.py:66-88 | one descriptor per catalog row with its name and `nullable == (is_nullable == "YES")`; a failed catalog query gives `[]` |
| SqlGateway.Stored | supabase_api.py:90-93 | a lookup adds only the looked-up table, stores the probe result on a miss (failure included) and changes no stored entry |
| SqlGateway.SchemaCache.GetSchema | supabase_api.py:90-93 | probes exactly on a miss, leaves the cache as `Stored`, and returns the stored list |
| SqlGateway.AllowedColumns | supabase_api.py:95-96 | the set holds exactly the names of the descriptors |
| SqlGateway.CatalogColumns | supabase_api.py:66-96 | a column is allowed exactly when a catalog row names it; no column is allowed after a failed catalog query |
| SqlGateway.Unknown | supabase_api.py:228 | the invalid list holds exactly the requested columns outside the schema |
| SqlGateway.QuoteAll | supabase_api.py:231 | each column is double-quoted, in order |
| SqlGateway.SelectList | supabase_api.py:222-231 | `*` passes; otherwise the list is accepted exactly when every item is a known column, and is then the quoted items joined by `", "`; a rejection is a 400 listing the unknown columns |
| SqlGateway.OrderClause | supabase_api.py:236-242 | no or empty `order` gives no clause; otherwise it is accepted exactly for a known column, as `ORDER BY "col" DESC/ASC` |
| SqlGateway.DefaultArgsDescending | supabase_api.py:212-217 | the default arguments pass validation, select every column, and an `order` given alone sorts descending |
| SqlGateway.Plan | supabase_api.py:219-256 | the select error comes first, then the filter error, then the ORDER BY error; when the select list, the filters and the ORDER BY column are all accepted the plan is accepted, with the statement text laid out from them; an accepted plan binds the filter values then `limit` and `offset`; every rejection is a 400 |
| SqlGateway.Endpoint | supabase_api.py:210-256 | a wrong key gives 401 and a disallowed table gives 404, neither touching the cache; otherwise the cache is `Stored` and the result is `Plan` on the cached columns |
| SqlGateway.TableSchema | supabase_api.py:202-206 | 401 and 404 as above; otherwise the table's cached descriptors, the cache being `Stored` |
| SqlGateway.TablesHaveNoPercent | supabase_api.py:44-50 | no allowed table name contains `%` |
| SqlGateway.SelectNoPercent | supabase_api.py:245-247 | the final select text holds no `%` when no known column does |
| SqlGateway.OrderNoPercent | supabase_api.py:236-242 | the ORDER BY text holds no `%` when no known column does |
| SqlGateway.StatementTextPlaceholders | supabase_api.py:249-255 | the statement holds the WHERE placeholders plus the two paging ones |
| SqlGateway.StatementPlaceholders | supabase_api.py:245-256 | the statement holds exactly one `%s` per bound parameter |
| Builder.First | api/index.py:99-104 | `qs.get(key)[0]` is absent exactly when no entry has the key, and is otherwise the first value of such an entry |
| Builder.FirstOfEntry | api/main.py:93-98 | in decoded input, looking up an entry's key gives that entry's first value |
| Builder.IntParam | api/index.py:102-103 | the value parses exactly when `int()` accepts the looked-up text or default; otherwise the error carries that text |
| Builder.FilterCallFor | api/index.py:56-75 | reserved keys, unknown columns, `is` and unknown operators add nothing; a comparison on a schema column is exactly that comparison on the first value; `in` on a schema column is exactly the raw comma segments of the first value |
| Builder.FilterCalls | api/main.py:43-64 | every filter call names a schema column, there is at most one per entry, and none at all with an empty schema |
| Builder.FilterCallsAppend | api/main.py:45-63 | the filters of concatenated entries are the filters of each part, in order |
| Builder.IgnoredEntryIrrelevant | api/index.py:57-64 | an entry that adds no filter can be removed from anywhere without changing the filters |
| Builder.FilterStep | api/supabase.py:35-57 | one iteration appends exactly the entry's filter call, if any |
| Builder.ApplyFilters | api/supabase.py:32-59 | the loop appends the filter calls of all entries, in order |
| Builder.RangeFor | api/index.py:110 | the range call covers exactly rows `offset` to `offset + limit - 1` |
| Builder.CappedOptions | api/index.py:98-104 | `select` defaults to `*` and `order` is the first `order` value; `limit` parsing errors come first; `limit` is `min(int, 1000)`; `desc` defaults to false; the count flag is set only by `count=True` |
| Builder.PlainOptions | api/main.py:92-98 | `select` defaults to `*` and `order` is the first `order` value; `limit` and `offset` are as parsed, `limit` errors first; `desc` defaults to true; `count` is passed through |
| Builder.DefaultDirections | api/index.py:101 | without `desc`, the capping handler sorts ascending and the others descending |
| Builder.Chain | api/main.py:100-104 | the chain starts with `select`, ends with the range of the options, and every filter names a schema column |
| Builder.ChainLayout | api/main.py:100-104 | after the select come exactly the query string's filter calls, then the order call when one was asked for, then the range |
| Builder.ChainOrderedIffAsked | api/supabase.py:102-103 | the chain orders rows exactly when a non-empty `order` was given |
| Builder.BuildQuery | api/supabase.py:99-105 | the builder statements produce `Chain` |
| Builder.AfterLookup | api/index.py:42-52 | a lookup keeps every stored entry and adds the table exactly when the probe returned rows |
| Builder.LookupResult | api/index.py:42-52 | a stored schema is returned as is; the lookup fails exactly when the table is unstored and the probe raised |
| Builder.ProbeCache.GetSchemaCatching | api/index.py:42-52 | the cache becomes `AfterLookup`, and the result is the lookup's schema or `[]` when the probe raised |
| Builder.ProbeCache.GetSchemaRaising | api/supabase.py:23-30 | the cache becomes `AfterLookup`, and the result is the lookup, with a raising probe propagating |
| Builder.SchemaWriteOnce | api/main.py:31-39 | once a schema is produced, every later lookup returns it, whatever the probe |
| Builder.RaisingProbeRetried | api/main.py:40-41 | a raising probe stores nothing, so the next lookup probes again |
| Builder.AsSet | api/index.py:55 | `set(schema)` has exactly the schema's names |
| IndexProxy.Handle | api/index.py:84-123 | OPTIONS is a preflight; any other verb but GET is a 405; 401 for a wrong key; 404 for an unknown table; a `limit` or `offset` that `int()` refuses and a failed execution are 500s; otherwise the request is served with the chain built from the capped options and the looked-up schema, and with their `limit` and `offset`; a served `limit` is at most 1000; nothing escapes uncaught |
| IndexProxy.Proxy | api/index.py:88-123 | the handler returns `Handle` and leaves the cache as after its one lookup |
| IndexProxy.ZeroLimitOptions | api/index.py:102 | `limit=0` passes the cap as 0 |
| IndexProxy.ZeroLimitServed | api/index.py:102-110 | a zero `limit` is served with an inverted range that names no row |
| MainProxy.Handle | api/main.py:70-116 | OPTIONS, 405, 401 and 404 as above; an exception escapes exactly when `int()` fails, carrying the refused text; a failed execution is a 500; otherwise the request is served with the chain built from the options as parsed and the looked-up schema, and a served `limit` is the parsed value, uncapped |
| MainProxy.Proxy | api/main.py:80-116 | the handler returns `Handle` and leaves the cache as after its one lookup |
| LambdaHandler.Handle | api/supabase.py:62-124 | OPTIONS first; 401 when the header differs from the configured key; 404 without the `/api/` prefix or for an unknown table; past those checks, a refused `int()` escapes with the refused text, a failed probe of an unstored table escapes, a failed execution is a 500, and otherwise the request is served with the chain built from the options and the schema |
| LambdaHandler.Handler | api/supabase.py:62-124 | the handler returns `Handle` and leaves the cache as after its one lookup |
| LambdaHandler.PlainPathRouted | api/supabase.py:84-87 | `/api/<table>` routes to the table |
| LambdaHandler.RepeatedPrefixRouted | api/supabase.py:87 | `/api/<table>/api/` also routes to the table, because every `/api/` is removed |
| LambdaHandler.MissingKeyAdmitsAnonymous | api/supabase.py:77-78 | with no configured key, a request without a key passes the key check |
| Variants.UnknownColumnDivergence | supabase_api.py:114-115 | an unknown column is a 400 in the gateway and is dropped by the builders |
| Variants.EmptySchemaDivergence | api/index.py:63-64 | with an empty schema the gateway rejects any filter while the builders send none |
| Variants.OperatorKey | api/index.py:57-62 | `op__col` for an operator without underscores is not reserved and splits back |
| Variants.IsOperatorDivergence | supabase_api.py:148-155 | `is__col=null/true/false` is a condition in the gateway and nothing in the builders |
| Variants.InListDivergence | api/index.py:75 | with a blank `in` segment, the builders pass every segment while the gateway binds strictly fewer values |
| Scenario.GatewayScenario | supabase_api.py:105-140 | `col1=v1&<cmp>__col2=v2` compiles to an equality and that comparison, in order |
| Scenario.BuilderScenario | api/main.py:45-62 | the builders make the same two filter calls, in order |

## Left out

- Database and network access is not modelled.
  - The rows, `res.data` and `res.count`, the response envelopes and the gateway's 502 on a failed statement are out of the model.
  - The gateway's endpoint ends with the statement it would execute.
  - The builder handlers take the probe result and the execution outcome (`Executed` or a failure message) as parameters.
- Request parsing by the framework is not modelled. `parse_qs` output is taken as already decoded (`Builder.Decoded`: distinct keys, at least one value each, no blank values), and the gateway's `dict(request.query_params)` as a list of pairs.
- The gateway's parameter checks are not modelled. The `limit`/`offset` bounds and the `count` pattern that the framework enforces before the handler runs are a precondition (`SqlGateway.ValidArgs`), not a 422 response.
- `hmac.compare_digest` is modelled as plain equality. Timing is not modelled.
- Environment loading, the connection factory, CORS headers, the OpenAPI document, `/health` and route registration are not modelled.
- Error and log message texts are not modelled. Only the kind of error and its status are kept.
- Exceptions inside the builder's own calls are not modelled. `api/index.py` wraps each filter call in a handler that skips the filter; the modelled builder never raises.
- A failing `order` or `select` call on the builder is not modelled.
- Numbers.ParseInt: accepts only ASCII digits. Python also accepts other Unicode decimal digits.
- Numbers.ParseInt: does not model the limit of 4300 digits that Python 3.11 and later put on `int()` of a string; longer digit strings parse in the model but raise `ValueError` in Python.
- `.lower()` is ASCII-only in the model; Unicode case mapping is not modelled. `.strip()` removes Python's full whitespace set (`Text.IsSpace`).
- SqlWhere.CompileWhere: takes the gateway's parameters as a list of pairs and does not require distinct keys. `dict(request.query_params)` (supabase_api.py:234) keeps only the last value of a repeated key, so the endpoint only ever passes distinct keys; the model does not enforce that.
- Concurrent requests sharing a cache are not modelled. Each method runs alone.
- SqlGateway.StatementPlaceholders: assumes that no allowed column name contains `%`. Column names come from the database catalog, which the model does not constrain.
- IndexProxy.Handle: models the catch-all OPTIONS route as answering every OPTIONS request, and does not model paths other than `/api/{table}`.
