/**
 * The WHERE-clause compiler of the direct-SQL gateway (`build_where_clause`):
 * every query parameter that is not reserved and not empty becomes one
 * parameterised condition on a column the table is known to have, or the
 * request is rejected with HTTP 400.
 */
module SqlWhere {
  import opened Wrappers
  import opened Text
  import opened Params

  /** The HTTP errors the direct-SQL gateway raises. */
  datatype ApiError =
    | Unauthorized                                  // 401, wrong X-API-Key
    | TableNotAllowed(table: string)                // 404, table outside the allow-list
    | UnknownColumn(column: string, table: string)  // 400, filter on a column the table lacks
    | BadIsValue                                    // 400, `is` with a value other than null/true/false
    | InvalidSelect(columns: seq<string>)           // 400, select list naming unknown columns
    | UnknownOrderColumn(column: string)            // 400, ORDER BY on an unknown column

  function Status(e: ApiError): int {
    match e
    case Unauthorized => 401
    case TableNotAllowed(_) => 404
    case _ => 400
  }

  /** The three literals the `is` operator accepts. */
  datatype Truth = Null | True | False

  /** `str(val).lower()` compared with "null", "true" and "false". */
  function ParseTruth(v: string): Option<Truth> {
    var l := Lower(v);
    if l == "null" then Some(Null)
    else if l == "true" then Some(True)
    else if l == "false" then Some(False)
    else None
  }

  /** What one condition tests; the operands are only ever bound, never written into the text. */
  datatype Predicate =
    | Compare(cmp: Comparison, value: string)
    | InList(items: seq<string>)
    | IsCheck(truth: Truth)

  datatype Condition = Condition(column: string, pred: Predicate)

  /** The values a predicate appends to the statement's parameter list, in order. */
  function Bound(p: Predicate): seq<string> {
    match p
    case Compare(_, v) => [v]
    case InList(items) => items
    case IsCheck(_) => []
  }

  /** A column name as a double-quoted SQL identifier. */
  function Quote(name: string): string {
    "\"" + name + "\""
  }

  function ComparisonSql(c: Comparison): string {
    match c
    case Eq => " = %s"
    case Ne => " != %s"
    case Gt => " > %s"
    case Gte => " >= %s"
    case Lt => " < %s"
    case Lte => " <= %s"
    case Like => " LIKE %s"
    case Ilike => " ILIKE %s"
  }

  /** `["%s"] * n`. */
  function Repeat(s: string, n: nat): (r: seq<string>)
    ensures |r| == n && forall x | x in r :: x == s
  {
    if n == 0 then [] else [s] + Repeat(s, n - 1)
  }

  /** `", ".join(["%s"] * n)`. */
  function PlaceholderList(n: nat): string {
    JoinWith(Repeat("%s", n), ", ")
  }

  /** The SQL text after the quoted column; it depends on the operator and the number of operands only. */
  function PredicateSql(p: Predicate): string {
    match p
    case Compare(c, _) => ComparisonSql(c)
    case InList(items) => " IN (" + PlaceholderList(|items|) + ")"
    case IsCheck(Null) => " IS NULL"
    case IsCheck(True) => " IS TRUE"
    case IsCheck(False) => " IS FALSE"
  }

  function ConditionSql(c: Condition): string {
    Quote(c.column) + PredicateSql(c.pred)
  }

  /**
   * One parameter of the request: `None` when it adds no condition,
   * an error when the request must be rejected.
   */
  function CompileParam(key: string, value: string, table: string, allowed: set<string>): (r: Result<Option<Condition>, ApiError>)
    ensures IsReserved(key) || value == "" ==> r == Ok(None)
    ensures !IsReserved(key) && value != "" && SplitKey(key).1 !in allowed ==> r == Err(UnknownColumn(SplitKey(key).1, table))
    ensures !IsReserved(key) && value != "" && SplitKey(key).1 in allowed ==>
      r == OperatorCondition(SplitKey(key).0, SplitKey(key).1, value)
    ensures !IsReserved(key) && value != "" && SplitKey(key).1 in allowed && ParseOperator(SplitKey(key).0).None? ==> r == Ok(None)
    ensures r.Err? ==> r.error == UnknownColumn(SplitKey(key).1, table) || (r.error == BadIsValue && SplitKey(key).0 == "is")
    ensures r.Ok? && r.value.Some? ==>
      && r.value.value.column == SplitKey(key).1
      && r.value.value.column in allowed
      && ParseOperator(SplitKey(key).0).Some?
      && forall v | v in Bound(r.value.value.pred) :: v != ""
  {
    if IsReserved(key) || value == "" then Ok(None)
    else
      var (op, col) := SplitKey(key);
      if col !in allowed then Err(UnknownColumn(col, table))
      else OperatorCondition(op, col, value)
  }

  /** The condition an operator prefix makes of a validated column and a non-empty value. */
  function OperatorCondition(op: string, col: string, value: string): (r: Result<Option<Condition>, ApiError>)
    requires value != ""
    ensures r.Err? ==> r.error == BadIsValue && op == "is"
    ensures ParseOperator(op).None? ==> r == Ok(None)
    ensures op == "is" ==> (r.Ok? <==> Lower(value) in {"null", "true", "false"})
    ensures op == "is" && Lower(value) == "null" ==> r == Ok(Some(Condition(col, IsCheck(Null))))
    ensures op == "is" && Lower(value) == "true" ==> r == Ok(Some(Condition(col, IsCheck(True))))
    ensures op == "is" && Lower(value) == "false" ==> r == Ok(Some(Condition(col, IsCheck(False))))
    ensures ParseOperator(op).Some? && ParseOperator(op).value.Cmp? ==>
      r == Ok(Some(Condition(col, Compare(ParseOperator(op).value.cmp, value))))
    ensures op == "in" ==> (r == Ok(None) <==> CommaItems(value) == [])
    ensures op == "in" && CommaItems(value) != [] ==> r == Ok(Some(Condition(col, InList(CommaItems(value)))))
    ensures r.Ok? && r.value.Some? ==>
      r.value.value.column == col && ParseOperator(op).Some? && forall v | v in Bound(r.value.value.pred) :: v != ""
  {
    match ParseOperator(op)
    case None => Ok(None)
    case Some(Cmp(c)) => Ok(Some(Condition(col, Compare(c, value))))
    case Some(In) =>
      var items := CommaItems(value);
      if items == [] then Ok(None) else Ok(Some(Condition(col, InList(items))))
    case Some(Is) =>
      match ParseTruth(value)
      case None => Err(BadIsValue)
      case Some(t) => Ok(Some(Condition(col, IsCheck(t))))
  }

  /** The parameters compiled in order; the first rejected parameter decides the error. */
  function CompileWhere(params: seq<(string, string)>, table: string, allowed: set<string>): (r: Result<seq<Condition>, ApiError>)
    ensures r.Err? ==> (r.error.UnknownColumn? && r.error.table == table) || r.error == BadIsValue
    ensures r.Err? ==> Status(r.error) == 400
    decreases |params|
  {
    if |params| == 0 then Ok([])
    else Extend(CompileWhere(params[..|params| - 1], table, allowed), params[|params| - 1], table, allowed)
  }

  /** The compiled prefix followed by one more parameter: a failure stays, otherwise the parameter's condition is added. */
  function Extend(prefix: Result<seq<Condition>, ApiError>, param: (string, string), table: string, allowed: set<string>): Result<seq<Condition>, ApiError> {
    match prefix
    case Err(e) => Err(e)
    case Ok(cs) =>
      match CompileParam(param.0, param.1, table, allowed)
      case Err(e) => Err(e)
      case Ok(None) => Ok(cs)
      case Ok(Some(c)) => Ok(cs + [c])
  }

  function Render(cs: seq<Condition>): (texts: seq<string>) {
    seq(|cs|, i requires 0 <= i < |cs| => ConditionSql(cs[i]))
  }

  /** `""` without conditions, otherwise `" WHERE "` and the conditions joined by `" AND "`. */
  function WhereSql(cs: seq<Condition>): string {
    if cs == [] then "" else " WHERE " + JoinWith(Render(cs), " AND ")
  }

  /** The statement parameters the conditions bind, in order. */
  function WhereValues(cs: seq<Condition>): seq<string> {
    if cs == [] then [] else Bound(cs[0].pred) + WhereValues(cs[1..])
  }

  lemma {:induction false} WhereValuesAppend(cs: seq<Condition>, c: Condition)
    ensures WhereValues(cs + [c]) == WhereValues(cs) + Bound(c.pred)
  {
    if cs == [] {
      assert [c][1..] == [];
    } else {
      assert (cs + [c])[1..] == cs[1..] + [c];
      WhereValuesAppend(cs[1..], c);
    }
  }

  /** The pair `build_where_clause` returns. */
  datatype WhereClause = WhereClause(text: string, values: seq<string>)

  function ClauseOf(cs: seq<Condition>): WhereClause {
    WhereClause(WhereSql(cs), WhereValues(cs))
  }

  /** Once a prefix of the parameters is rejected, the whole request is rejected with that error. */
  lemma {:induction false} ErrorPersists(params: seq<(string, string)>, n: nat, table: string, allowed: set<string>)
    requires n <= |params|
    requires CompileWhere(params[..n], table, allowed).Err?
    ensures CompileWhere(params, table, allowed) == CompileWhere(params[..n], table, allowed)
    decreases |params| - n
  {
    if n < |params| {
      assert params[..n + 1][..n] == params[..n];
      ErrorPersists(params, n + 1, table, allowed);
    } else {
      assert params[..n] == params;
    }
  }

  /** What one parameter contributes to the two lists: a condition text and the values it binds. */
  function Emitted(r: Result<Option<Condition>, ApiError>): Result<Option<(string, seq<string>)>, ApiError> {
    match r
    case Err(e) => Err(e)
    case Ok(None) => Ok(None)
    case Ok(Some(c)) => Ok(Some((ConditionSql(c), Bound(c.pred))))
  }

  /**
   * The body of the loop of `build_where_clause` for one parameter: the
   * operator chain that picks the condition text and the values to bind.
   */
  method ParamCondition(key: string, val: string, table: string, allowed: set<string>) returns (r: Result<Option<(string, seq<string>)>, ApiError>)
    ensures r == Emitted(CompileParam(key, val, table, allowed))
  {
    if key in Reserved || val == "" {
      return Ok(None);
    }
    var (op, col) := SplitKey(key);
    if col !in allowed {
      return Err(UnknownColumn(col, table));
    }
    r := OperatorText(op, col, val);
  }

  /** The `if op == ...` chain of `build_where_clause`. */
  method OperatorText(op: string, col: string, val: string) returns (r: Result<Option<(string, seq<string>)>, ApiError>)
    requires val != ""
    ensures r == Emitted(OperatorCondition(op, col, val))
  {
    if op == "eq" {
      r := Ok(Some((Quote(col) + " = %s", [val])));
    } else if op == "ne" {
      r := Ok(Some((Quote(col) + " != %s", [val])));
    } else if op == "gt" {
      r := Ok(Some((Quote(col) + " > %s", [val])));
    } else if op == "gte" {
      r := Ok(Some((Quote(col) + " >= %s", [val])));
    } else if op == "lt" {
      r := Ok(Some((Quote(col) + " < %s", [val])));
    } else if op == "lte" {
      r := Ok(Some((Quote(col) + " <= %s", [val])));
    } else if op == "like" {
      r := Ok(Some((Quote(col) + " LIKE %s", [val])));
    } else if op == "ilike" {
      r := Ok(Some((Quote(col) + " ILIKE %s", [val])));
    } else if op == "in" {
      var items := CommaItems(val);
      if items == [] {
        return Ok(None);
      }
      var placeholders := JoinWith(Repeat("%s", |items|), ", ");
      r := Ok(Some((Quote(col) + " IN (" + placeholders + ")", items)));
      assert Quote(col) + " IN (" + placeholders + ")" == Quote(col) + (" IN (" + PlaceholderList(|items|) + ")");
    } else if op == "is" {
      var v := Lower(val);
      if v == "null" {
        r := Ok(Some((Quote(col) + " IS NULL", [])));
      } else if v == "true" {
        r := Ok(Some((Quote(col) + " IS TRUE", [])));
      } else if v == "false" {
        r := Ok(Some((Quote(col) + " IS FALSE", [])));
      } else {
        r := Err(BadIsValue);
      }
    } else {
      r := Ok(None);
    }
  }

  /**
   * `build_where_clause`: walks the parameters in order, appending
   * condition texts and bound values, and raises on the first rejected
   * parameter.
   */
  method BuildWhereClause(params: seq<(string, string)>, table: string, allowed: set<string>) returns (r: Result<WhereClause, ApiError>)
    ensures CompileWhere(params, table, allowed).Err? ==> r == Err(CompileWhere(params, table, allowed).error)
    ensures CompileWhere(params, table, allowed).Ok? ==> r == Ok(ClauseOf(CompileWhere(params, table, allowed).value))
  {
    var conditions: seq<string> := [];
    var values: seq<string> := [];
    ghost var cs: seq<Condition> := [];
    for i := 0 to |params|
      invariant CompileWhere(params[..i], table, allowed) == Ok(cs)
      invariant conditions == Render(cs)
      invariant values == WhereValues(cs)
    {
      var (key, val) := params[i];
      ghost var compiled := CompileParam(key, val, table, allowed);
      CompileWhereNext(params, i, table, allowed, cs);
      var step := ParamCondition(key, val, table, allowed);
      if step.Err? {
        return Err(step.error);
      }
      if step.value.Some? {
        ghost var cond := compiled.value.value;
        ClauseAppend(cs, cond);
        conditions := conditions + [step.value.value.0];
        values := values + step.value.value.1;
        cs := cs + [cond];
      }
    }
    assert params[..|params|] == params;
    var whereClause := if |conditions| > 0 then " WHERE " + JoinWith(conditions, " AND ") else "";
    r := Ok(WhereClause(whereClause, values));
  }

  /** One more parameter: the compiled prefix grows by its condition, or the whole request fails with its error. */
  lemma CompileWhereNext(params: seq<(string, string)>, i: nat, table: string, allowed: set<string>, cs: seq<Condition>)
    requires i < |params| && CompileWhere(params[..i], table, allowed) == Ok(cs)
    ensures CompileParam(params[i].0, params[i].1, table, allowed).Err? ==>
      CompileWhere(params, table, allowed) == Err(CompileParam(params[i].0, params[i].1, table, allowed).error)
    ensures CompileParam(params[i].0, params[i].1, table, allowed) == Ok(None) ==>
      CompileWhere(params[..i + 1], table, allowed) == Ok(cs)
    ensures CompileParam(params[i].0, params[i].1, table, allowed).Ok? && CompileParam(params[i].0, params[i].1, table, allowed).value.Some? ==>
      CompileWhere(params[..i + 1], table, allowed) == Ok(cs + [CompileParam(params[i].0, params[i].1, table, allowed).value.value])
  {
    assert params[..i + 1][..i] == params[..i];
    if CompileParam(params[i].0, params[i].1, table, allowed).Err? {
      ErrorPersists(params, i + 1, table, allowed);
    }
  }

  lemma ClauseAppend(cs: seq<Condition>, c: Condition)
    ensures Render(cs + [c]) == Render(cs) + [ConditionSql(c)]
    ensures WhereValues(cs + [c]) == WhereValues(cs) + Bound(c.pred)
  {
    assert Render(cs + [c]) == Render(cs) + [ConditionSql(c)];
    WhereValuesAppend(cs, c);
  }

  // ------------------------------------------------------------------ lemmas

  /** A reserved key or an empty value can be dropped from anywhere in the request without effect. */
  lemma {:induction false} InertParamIgnored(p: seq<(string, string)>, k: string, v: string, q: seq<(string, string)>, table: string, allowed: set<string>)
    requires IsReserved(k) || v == ""
    ensures CompileWhere(p + [(k, v)] + q, table, allowed) == CompileWhere(p + q, table, allowed)
    decreases |q|
  {
    var whole := p + [(k, v)] + q;
    if |q| == 0 {
      assert whole[..|whole| - 1] == p;
      assert p + q == p;
    } else {
      var init := q[..|q| - 1];
      InertParamIgnored(p, k, v, init, table, allowed);
      assert whole[..|whole| - 1] == p + [(k, v)] + init;
      assert (p + q)[..|p + q| - 1] == p + init;
      assert whole[|whole| - 1] == (p + q)[|p + q| - 1];
    }
  }

  /** A filter on a column the table lacks rejects the request, wherever it stands among the parameters. */
  lemma {:induction false} UnknownColumnRejected(params: seq<(string, string)>, table: string, allowed: set<string>, i: nat)
    requires i < |params|
    requires !IsReserved(params[i].0) && params[i].1 != "" && SplitKey(params[i].0).1 !in allowed
    ensures CompileWhere(params, table, allowed).Err?
  {
    var prefix := params[..i + 1];
    assert prefix[..|prefix| - 1] == params[..i];
    assert CompileWhere(prefix, table, allowed).Err?;
    ErrorPersists(params, i + 1, table, allowed);
  }

  /** With no known columns every filter is rejected: this compiler fails closed on an empty schema. */
  lemma EmptySchemaFailsClosed(params: seq<(string, string)>, table: string, i: nat)
    requires i < |params| && !IsReserved(params[i].0) && params[i].1 != ""
    ensures CompileWhere(params, table, {}).Err?
  {
    UnknownColumnRejected(params, table, {}, i);
  }

  /** The request is accepted exactly when every one of its parameters is accepted on its own. */
  lemma {:induction false} AcceptedIffEachAccepted(params: seq<(string, string)>, table: string, allowed: set<string>)
    ensures CompileWhere(params, table, allowed).Ok? <==>
      forall i | 0 <= i < |params| :: CompileParam(params[i].0, params[i].1, table, allowed).Ok?
    decreases |params|
  {
    if |params| > 0 {
      var n := |params| - 1;
      var init := params[..n];
      AcceptedIffEachAccepted(init, table, allowed);
      ExtendOk(CompileWhere(init, table, allowed), params[n], table, allowed);
      assert forall i | 0 <= i < n :: init[i] == params[i];
    }
  }

  /** One more parameter keeps the request accepted exactly when that parameter is accepted. */
  lemma ExtendOk(prefix: Result<seq<Condition>, ApiError>, param: (string, string), table: string, allowed: set<string>)
    ensures Extend(prefix, param, table, allowed).Ok? <==> prefix.Ok? && CompileParam(param.0, param.1, table, allowed).Ok?
  {
  }

  /** Every condition of an accepted request names a known column and binds only non-empty values. */
  lemma {:induction false} AcceptedConditionsWellFormed(params: seq<(string, string)>, table: string, allowed: set<string>)
    requires CompileWhere(params, table, allowed).Ok?
    ensures forall c | c in CompileWhere(params, table, allowed).value ::
      c.column in allowed && forall v | v in Bound(c.pred) :: v != ""
    decreases |params|
  {
    if |params| > 0 {
      AcceptedConditionsWellFormed(params[..|params| - 1], table, allowed);
    }
  }

  /** The values a list of conditions binds are exactly the values its conditions bind. */
  lemma {:induction false} WhereValuesNonEmpty(cs: seq<Condition>)
    requires forall c | c in cs :: forall v | v in Bound(c.pred) :: v != ""
    ensures forall v | v in WhereValues(cs) :: v != ""
  {
    if cs != [] {
      assert cs[0] in cs;
      assert forall c | c in cs[1..] :: c in cs;
      WhereValuesNonEmpty(cs[1..]);
    }
  }

  /** `", ".join(["%s"] * n)` holds n placeholders. */
  lemma {:induction false} PlaceholderListCount(n: nat)
    ensures Placeholders(PlaceholderList(n)) == n
  {
    var parts := Repeat("%s", n);
    NoPercentNoPlaceholders(", ");
    JoinPlaceholders(parts, ", ");
    RepeatPlaceholders(n);
  }

  lemma {:induction false} RepeatPlaceholders(n: nat)
    ensures SumPlaceholders(Repeat("%s", n)) == n
  {
    if n > 0 {
      assert Repeat("%s", n)[1..] == Repeat("%s", n - 1);
      RepeatPlaceholders(n - 1);
    }
  }

  lemma ComparisonPlaceholders(c: Comparison)
    ensures Placeholders(ComparisonSql(c)) == 1
  {
    var t := ComparisonSql(c);
    var symbol := t[..|t| - 2];
    assert t == symbol + "%s";
    assert '%' !in symbol;
    NoPercentNoPlaceholders(symbol);
    PlaceholdersConcat(symbol, "%s");
  }

  lemma InListPlaceholders(n: nat)
    ensures Placeholders(" IN (" + PlaceholderList(n) + ")") == n
  {
    var list := PlaceholderList(n);
    PlaceholderListCount(n);
    NoPercentNoPlaceholders(" IN (");
    PlaceholdersConcat(" IN (", list);
    PlaceholdersConcat(" IN (" + list, ")");
  }

  /** Each predicate's text carries exactly one placeholder per value it binds. */
  lemma PredicatePlaceholders(p: Predicate)
    ensures Placeholders(PredicateSql(p)) == |Bound(p)|
  {
    match p
    case Compare(c, _) => ComparisonPlaceholders(c);
    case InList(items) => InListPlaceholders(|items|);
    case IsCheck(t) => NoPercentNoPlaceholders(PredicateSql(p));
  }

  /** A condition on a column without `%` carries exactly one placeholder per value it binds. */
  lemma ConditionPlaceholders(c: Condition)
    requires '%' !in c.column
    ensures Placeholders(ConditionSql(c)) == |Bound(c.pred)|
  {
    NoPercentNoPlaceholders(c.column);
    PlaceholdersConcat("\"", c.column);
    PlaceholdersConcat("\"" + c.column, "\"");
    PredicatePlaceholders(c.pred);
    PlaceholdersConcat(Quote(c.column), PredicateSql(c.pred));
  }

  lemma {:induction false} RenderPlaceholders(cs: seq<Condition>)
    requires forall c | c in cs :: '%' !in c.column
    ensures SumPlaceholders(Render(cs)) == |WhereValues(cs)|
  {
    if cs != [] {
      assert cs[0] in cs;
      assert forall c | c in cs[1..] :: c in cs;
      assert Render(cs)[1..] == Render(cs[1..]);
      ConditionPlaceholders(cs[0]);
      RenderPlaceholders(cs[1..]);
    }
  }

  /**
   * The WHERE text holds exactly as many `%s` placeholders as there are
   * values to bind, so operands reach the database only as parameters.
   */
  lemma WherePlaceholders(cs: seq<Condition>)
    requires forall c | c in cs :: '%' !in c.column
    ensures Placeholders(WhereSql(cs)) == |WhereValues(cs)|
  {
    if cs != [] {
      NoPercentNoPlaceholders(" AND ");
      NoPercentNoPlaceholders(" WHERE ");
      JoinPlaceholders(Render(cs), " AND ");
      RenderPlaceholders(cs);
      PlaceholdersConcat(" WHERE ", JoinWith(Render(cs), " AND "));
    }
  }

  /** Two predicates of the same operator and arity, whatever their operands. */
  predicate SameShape(p: Predicate, q: Predicate) {
    match (p, q)
    case (Compare(c, _), Compare(d, _)) => c == d
    case (InList(a), InList(b)) => |a| == |b|
    case (IsCheck(s), IsCheck(t)) => s == t
    case _ => false
  }

  /** The WHERE text is the same for any operands: no operand is ever written into it. */
  lemma WhereSqlIgnoresOperands(cs: seq<Condition>, ds: seq<Condition>)
    requires |cs| == |ds|
    requires forall i | 0 <= i < |cs| :: cs[i].column == ds[i].column && SameShape(cs[i].pred, ds[i].pred)
    ensures WhereSql(cs) == WhereSql(ds)
  {
    forall i | 0 <= i < |cs| ensures ConditionSql(cs[i]) == ConditionSql(ds[i]) {
      assert SameShape(cs[i].pred, ds[i].pred);
    }
    assert Render(cs) == Render(ds);
  }
}
