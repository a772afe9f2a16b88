/**
 * What every variant of the query translator does with a parameter key
 * before it looks at the value: skip the reserved keys, split
 * `operator__column` at the first `__`, and recognise the operator.
 */
module Params {
  import opened Wrappers
  import opened Text

  /** Keys that control the response shape and never become filters. */
  const Reserved: set<string> := {"select", "order", "desc", "limit", "offset", "count"}

  predicate IsReserved(key: string) {
    key in Reserved
  }

  /** A key with an underscore is never reserved. */
  lemma UnderscoreNotReserved(key: string)
    requires '_' in key
    ensures !IsReserved(key)
  {
    assert forall w | w in Reserved :: '_' !in w;
  }

  /**
   * `op, col = key.split("__", 1)` when the key contains `__`, and
   * `"eq", key` otherwise.
   */
  function SplitKey(key: string): (r: (string, string))
    ensures !Contains(key, "__") ==> r == ("eq", key)
    ensures Contains(key, "__") ==> key == r.0 + "__" + r.1 && !Contains(r.0 + "_", "__")
  {
    match IndexOf(key, "__")
    case None => ("eq", key)
    case Some(i) =>
      var op, col := key[..i], key[i + 2..];
      assert key == op + "__" + col;
      forall j | 0 <= j <= |op + "_"| ensures !OccursAt(op + "_", "__", j) {
        if j + 2 <= |op + "_"| {
          assert (op + "_")[j..j + 2] == key[j..j + 2];
          assert !OccursAt(key, "__", j);
        }
      }
      (op, col)
  }

  /** An operator that has no `__` even with one more `_` after it is split back off exactly. */
  lemma SplitKeyOfJoined(op: string, col: string)
    requires !Contains(op + "_", "__")
    ensures SplitKey(op + "__" + col) == (op, col)
  {
    var key := op + "__" + col;
    assert OccursAt(key, "__", |op|);
    forall j | 0 <= j < |op| ensures !OccursAt(key, "__", j) {
      assert key[j..j + 2] == (op + "_")[j..j + 2];
      assert !OccursAt(op + "_", "__", j);
    }
    assert IndexOf(key, "__") == Some(|op|);
    assert key[..|op|] == op;
    assert key[|op| + 2..] == col;
  }

  /** An operator without underscores is split back off its column exactly. */
  lemma SplitKeyOfOperator(op: string, col: string)
    requires '_' !in op
    ensures SplitKey(op + "__" + col) == (op, col)
  {
    var s := op + "_";
    forall j | 0 <= j <= |s| ensures !OccursAt(s, "__", j) {
      if j + 2 <= |s| {
        assert s[j..j + 2][0] == s[j] == op[j];
        assert op[j] in op;
      }
    }
    SplitKeyOfJoined(op, col);
  }

  /** A bare column is the same filter as the explicit `eq__column`. */
  lemma DefaultOperatorIsEq(col: string)
    requires !Contains(col, "__")
    ensures SplitKey(col) == SplitKey("eq__" + col)
  {
    forall j | 0 <= j <= 3 ensures !OccursAt("eq_", "__", j) {
      if j + 2 <= 3 {
        assert "eq_"[j..j + 2][0] == "eq_"[j] != '_';
      }
    }
    assert "eq" + "_" == "eq_";
    SplitKeyOfJoined("eq", col);
    assert "eq" + "__" + col == "eq__" + col;
  }

  /** The eight comparisons that take one operand. */
  datatype Comparison = Eq | Ne | Gt | Gte | Lt | Lte | Like | Ilike

  /** The ten operator prefixes a filter key may carry. */
  datatype Operator = Cmp(cmp: Comparison) | In | Is

  /** The prefix a client writes for an operator. */
  function OperatorName(op: Operator): string {
    match op
    case Cmp(Eq) => "eq"
    case Cmp(Ne) => "ne"
    case Cmp(Gt) => "gt"
    case Cmp(Gte) => "gte"
    case Cmp(Lt) => "lt"
    case Cmp(Lte) => "lte"
    case Cmp(Like) => "like"
    case Cmp(Ilike) => "ilike"
    case In => "in"
    case Is => "is"
  }

  /** Recognises an operator prefix; anything else is not an operator. */
  function ParseOperator(s: string): (r: Option<Operator>)
    ensures r.Some? ==> OperatorName(r.value) == s
    ensures r.None? <==> forall op: Operator :: OperatorName(op) != s
  {
    if s == "eq" then Some(Cmp(Eq))
    else if s == "ne" then Some(Cmp(Ne))
    else if s == "gt" then Some(Cmp(Gt))
    else if s == "gte" then Some(Cmp(Gte))
    else if s == "lt" then Some(Cmp(Lt))
    else if s == "lte" then Some(Cmp(Lte))
    else if s == "like" then Some(Cmp(Like))
    else if s == "ilike" then Some(Cmp(Ilike))
    else if s == "in" then Some(In)
    else if s == "is" then Some(Is)
    else None
  }

  /** Every operator is recognised by the prefix a client writes for it. */
  lemma ParseOperatorName(op: Operator)
    ensures ParseOperator(OperatorName(op)) == Some(op)
  {
    var r := ParseOperator(OperatorName(op));
    assert r.Some?;
    match r.value
    case Cmp(c) => assert OperatorName(Cmp(c)) == OperatorName(op);
    case In => assert OperatorName(In) == OperatorName(op);
    case Is => assert OperatorName(Is) == OperatorName(op);
  }
}
