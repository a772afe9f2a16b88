/**
 * A request with a bare equality filter followed by a `gt__` filter, both
 * on known columns (for instance `status=DA_GIAO&gt__created_at=2025-01-01`
 * on `orders`): both translation paths keep the two filters, in order.
 */
module Scenario {
  import opened Wrappers
  import opened Text
  import opened Params
  import opened SqlWhere
  import opened Builder

  /** The two keys of the request: a bare column, and `op__col` for a short operator. */
  lemma ScenarioKeys(c1: string, op: string, c2: string)
    requires !Contains(c1, "__") && !IsReserved(c1)
    requires '_' !in op
    ensures SplitKey(c1) == ("eq", c1)
    ensures SplitKey(op + "__" + c2) == (op, c2) && !IsReserved(op + "__" + c2)
  {
    var key := op + "__" + c2;
    SplitKeyOfOperator(op, c2);
    assert key[|op|] == '_';
    UnderscoreNotReserved(key);
  }

  /** No operator name holds an underscore. */
  lemma OperatorNameNoUnderscore(op: Operator)
    ensures '_' !in OperatorName(op)
  {
  }

  /** The gateway compiles the two parameters into an equality and the comparison, in request order. */
  lemma GatewayScenario(c1: string, v1: string, cmp: Comparison, c2: string, v2: string, table: string, allowed: set<string>)
    requires !Contains(c1, "__") && !IsReserved(c1) && c1 in allowed && c2 in allowed
    requires v1 != "" && v2 != ""
    ensures CompileWhere([(c1, v1), (OperatorName(Cmp(cmp)) + "__" + c2, v2)], table, allowed)
      == Ok([Condition(c1, Compare(Eq, v1)), Condition(c2, Compare(cmp, v2))])
  {
    var op := OperatorName(Cmp(cmp));
    OperatorNameNoUnderscore(Cmp(cmp));
    ScenarioKeys(c1, op, c2);
    ParseOperatorName(Cmp(Eq));
    ParseOperatorName(Cmp(cmp));
    var params := [(c1, v1), (op + "__" + c2, v2)];
    assert CompileParam(c1, v1, table, allowed) == Ok(Some(Condition(c1, Compare(Eq, v1))));
    assert CompileParam(op + "__" + c2, v2, table, allowed) == Ok(Some(Condition(c2, Compare(cmp, v2))));
    assert params[..1] == [(c1, v1)];
    assert params[..1][..0] == [];
    var first, second := Condition(c1, Compare(Eq, v1)), Condition(c2, Compare(cmp, v2));
    assert CompileWhere(params[..1], table, allowed) == Extend(Ok([]), (c1, v1), table, allowed);
    assert [] + [first] == [first];
    assert [first] + [second] == [first, second];
    assert CompileWhere(params, table, allowed) == Extend(CompileWhere(params[..1], table, allowed), params[1], table, allowed);
  }

  /** The builder handlers make the same two filter calls, in query-string order. */
  lemma BuilderScenario(c1: string, v1: string, cmp: Comparison, c2: string, v2: string, schema: set<string>)
    requires !Contains(c1, "__") && !IsReserved(c1) && c1 in schema && c2 in schema
    ensures FilterCalls([(c1, [v1]), (OperatorName(Cmp(cmp)) + "__" + c2, [v2])], schema)
      == [FilterCall(Eq, c1, v1), FilterCall(cmp, c2, v2)]
  {
    var op := OperatorName(Cmp(cmp));
    OperatorNameNoUnderscore(Cmp(cmp));
    ScenarioKeys(c1, op, c2);
    ParseOperatorName(Cmp(Eq));
    ParseOperatorName(Cmp(cmp));
    var qs: QueryString := [(c1, [v1]), (op + "__" + c2, [v2])];
    assert FilterCallFor(c1, [v1], schema) == Some(FilterCall(Eq, c1, v1));
    assert FilterCallFor(op + "__" + c2, [v2], schema) == Some(FilterCall(cmp, c2, v2));
    assert qs[..1] == [(c1, [v1])];
    assert qs[..1][..0] == [];
  }
}
