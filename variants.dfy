/**
 * Where the SQL gateway and the builder handlers part ways on the same
 * request: the gateway rejects what it cannot translate, the builder
 * handlers silently drop it.
 */
module Variants {
  import opened Wrappers
  import opened Text
  import opened Params
  import opened SqlWhere
  import opened Builder

  /** A filter on a column outside the schema: the gateway rejects the request, the builders drop the filter. */
  lemma UnknownColumnDivergence(key: string, value: string, table: string, schema: set<string>)
    requires !IsReserved(key) && value != "" && SplitKey(key).1 !in schema
    ensures CompileParam(key, value, table, schema) == Err(UnknownColumn(SplitKey(key).1, table))
    ensures FilterCallFor(key, [value], schema) == None
  {
  }

  /**
   * With an empty schema (a table whose probe found no row or failed) the
   * gateway rejects any filter, while the builders send none at all.
   */
  lemma EmptySchemaDivergence(params: seq<(string, string)>, qs: QueryString, table: string, i: nat)
    requires i < |params| && !IsReserved(params[i].0) && params[i].1 != ""
    requires Listed(qs)
    ensures CompileWhere(params, table, {}).Err?
    ensures FilterCalls(qs, {}) == []
  {
    EmptySchemaFailsClosed(params, table, i);
  }

  /** `op__col` for a short operator is no reserved key and splits back into `op` and `col`. */
  lemma OperatorKey(op: string, col: string)
    requires '_' !in op
    ensures SplitKey(op + "__" + col) == (op, col)
    ensures !IsReserved(op + "__" + col)
  {
    SplitKeyOfOperator(op, col);
    var key := op + "__" + col;
    assert key[|op|] == '_';
    UnderscoreNotReserved(key);
  }

  /** `is__<col>=null|true|false` becomes a condition in the gateway and nothing in the builders. */
  lemma IsOperatorDivergence(key: string, col: string, value: string, table: string, schema: set<string>)
    requires !IsReserved(key) && SplitKey(key) == ("is", col)
    requires col in schema && Lower(value) in {"null", "true", "false"}
    ensures CompileParam(key, value, table, schema).Ok?
    ensures CompileParam(key, value, table, schema).value.Some?
    ensures FilterCallFor(key, [value], schema) == None
  {
    assert value != "";
  }

  /**
   * A blank segment in an `in` list: the builders pass every raw segment,
   * while the gateway binds strictly fewer values, or drops the filter.
   */
  lemma InListDivergence(key: string, col: string, value: string, table: string, schema: set<string>, i: nat)
    requires !IsReserved(key) && SplitKey(key) == ("in", col)
    requires col in schema && value != ""
    requires i < |Split(value, ',')| && Strip(Split(value, ',')[i]) == ""
    ensures FilterCallFor(key, [value], schema) == Some(InCall(col, Split(value, ',')))
    ensures CompileParam(key, value, table, schema).Ok?
    ensures CompileParam(key, value, table, schema).value.Some? ==>
      |Bound(CompileParam(key, value, table, schema).value.value.pred)| < |Split(value, ',')|
  {
    ParseOperatorName(In);
    var items := CommaItems(value);
    StripNonBlankDropsBlank(Split(value, ','), i);
    assert |items| < |Split(value, ',')|;
    assert OperatorCondition("in", col, value) == (if items == [] then Ok(None) else Ok(Some(Condition(col, InList(items)))));
    assert CompileParam(key, value, table, schema) == OperatorCondition("in", col, value);
  }
}
