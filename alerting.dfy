// The alert-rule evaluator of pkg/alerting/scheduler.go: the comparison of
// a measured total against a threshold, the AND/OR condition lists with
// their early returns and nesting rules, and the filter that turns a rule's
// scope into connection IDs.  The onboard service's connection groups are
// an oracle.
//
// The JSON operator tree is the pair of mutually recursive datatypes
// `Operator`/`Condition`; a Go nil pointer or nil slice is `None`.  A nil
// dereference or an index out of range is the `Panic` outcome.

module Alerting {
  import opened Common

  datatype OperatorType =
    | GreaterThan | LessThan | GreaterThanOrEqual | LessThanOrEqual | Equal | DoesNotEqual
    | OtherOperator(name: string)

  datatype OperatorInfo = OperatorInfo(operatorType: OperatorType, value: int)

  /** api.OperatorStruct: a leaf comparison or a nested condition. */
  datatype Operator = Operator(info: Option<OperatorInfo>, condition: Option<Condition>)

  /** An operand slice: nil, or a (possibly empty) list. */
  datatype OperatorList = NilOperators | Operators(items: seq<Operator>)

  /** api.ConditionStruct: a condition type and its operand list. */
  datatype Condition = Condition(conditionType: string, operators: OperatorList)

  /** The values of api.ConditionAnd and api.ConditionOr. */
  const ConditionAnd: string := "AND"
  const ConditionOr: string := "OR"

  /** The (bool, error) pair of the evaluator, or a run-time panic. */
  datatype Eval = Holds(b: bool) | Fails(msg: string) | Panic

  /** How an inner group loop ends: with a return of the enclosing function, or by leaving the loop. */
  datatype Step = Return(e: Eval) | Next

  /** compareValue: `totalValue <op> value`; an unknown operator never holds. */
  function CompareValue(op: OperatorType, value: int, totalValue: int): (b: bool)
    ensures op == GreaterThan ==> (b <==> totalValue > value)
    ensures op == LessThan ==> (b <==> totalValue < value)
    ensures op == GreaterThanOrEqual ==> (b <==> totalValue >= value)
    ensures op == LessThanOrEqual ==> (b <==> totalValue <= value)
    ensures op == Equal ==> (b <==> totalValue == value)
    ensures op == DoesNotEqual ==> (b <==> totalValue != value)
    ensures op.OtherOperator? ==> !b
  {
    match op
    case GreaterThan => totalValue > value
    case LessThan => totalValue < value
    case GreaterThanOrEqual => totalValue >= value
    case LessThanOrEqual => totalValue <= value
    case Equal => totalValue == value
    case DoesNotEqual => totalValue != value
    case OtherOperator(_) => false
  }

  /** `>=` is `>` or `==`, and `!=` is the negation of `==`. */
  lemma CompareValueConsistent(value: int, totalValue: int)
    ensures CompareValue(GreaterThanOrEqual, value, totalValue) ==
      (CompareValue(GreaterThan, value, totalValue) || CompareValue(Equal, value, totalValue))
    ensures CompareValue(DoesNotEqual, value, totalValue) == !CompareValue(Equal, value, totalValue)
    ensures CompareValue(LessThan, value, totalValue) == !CompareValue(GreaterThanOrEqual, value, totalValue)
  {
  }

  /** The operand list; a nil slice has length 0. */
  function Ops(c: Condition): seq<Operator>
  {
    if c.operators.Operators? then c.operators.items else []
  }

  /**
   * calculationOperations.  `fixedOrBound` selects the inner loop bound of
   * calculationConditionStrOr: false is the source as written (the length
   * of the condition-type string), true the evidently intended operand
   * count.
   */
  function CalculationOperations(op: Operator, total: int, fixedOrBound: bool): (r: Eval)
    ensures op.info.Some? ==> r == Holds(CompareValue(op.info.value.operatorType, op.info.value.value, total))
    ensures op.info.None? && op.condition.None? ==> r == Fails("error entering the operation")
    decreases op, 2, 0
  {
    if op.info.Some? then Holds(CompareValue(op.info.value.operatorType, op.info.value.value, total))
    else if op.condition.Some? then
      match CalculationConditionStr(op.condition.value, total, fixedOrBound)
      case Fails(e) => Fails("error in calculation operator , error : " + e + " ")
      case other => other
    else Fails("error entering the operation")
  }

  /** calculationConditionStr: dispatch on the condition type. */
  function CalculationConditionStr(c: Condition, total: int, fixedOrBound: bool): (r: Eval)
    ensures c.conditionType != ConditionAnd && c.conditionType != ConditionOr ==>
      r == Fails("please enter right condition")
    decreases c, 1, 0
  {
    if c.conditionType == ConditionAnd then AndLoop(c, total, 0, fixedOrBound)
    else if c.conditionType == ConditionOr then OrLoop(c, total, 0, fixedOrBound)
    else Fails("please enter right condition")
  }

  /**
   * The inner loop over a nested group `g`, shared by the AND and OR lists:
   * `bound` is the loop bound, `outerLast` whether the group is the last
   * element of the enclosing list.
   */
  function GroupLoop(g: Condition, total: int, j: nat, bound: nat, outerLast: bool, fixedOrBound: bool): (s: Step)
    decreases g, 0, bound - j
  {
    if j >= bound then Next
    else if j >= |Ops(g)| then Return(Panic)
    else
      match CalculationOperations(Ops(g)[j], total, fixedOrBound)
      case Panic => Return(Panic)
      case Fails(e) => Return(Fails("error in calculationOperations : " + e + " "))
      case Holds(stat) =>
        if g.conditionType == ConditionAnd then
          if !stat then Return(Holds(false))
          else if j == bound - 1 then (if outerLast then Return(Holds(true)) else Next)
          else GroupLoop(g, total, j + 1, bound, outerLast, fixedOrBound)
        else if g.conditionType == ConditionOr then
          if stat then Return(Holds(true))
          else if j == bound - 1 then (if outerLast then Return(Holds(false)) else Next)
          else GroupLoop(g, total, j + 1, bound, outerLast, fixedOrBound)
        else Return(Fails("error: condition type is invalid"))
  }

  /** calculationConditionStrAND from element `i` on. */
  function AndLoop(c: Condition, total: int, i: nat, fixedOrBound: bool): (r: Eval)
    decreases c, 0, |Ops(c)| - i
  {
    var ops := Ops(c);
    if i >= |ops| then Fails("error")
    else
      var op := ops[i];
      var last := i == |ops| - 1;
      if op.info.Some? then
        if !CompareValue(op.info.value.operatorType, op.info.value.value, total) then Holds(false)
        else if last then Holds(true)
        else AndLoop(c, total, i + 1, fixedOrBound)
      else if op.condition.None? then Panic
      else if op.condition.value.conditionType != "" then
        var g := op.condition.value;
        assert op in c.operators.items;
        match GroupLoop(g, total, 0, |Ops(g)|, last, fixedOrBound)
        case Return(e) => e
        case Next => AndLoop(c, total, i + 1, fixedOrBound)
      else Fails("error condition is impty")
  }

  /** calculationConditionStrOr from element `i` on. */
  function OrLoop(c: Condition, total: int, i: nat, fixedOrBound: bool): (r: Eval)
    decreases c, 0, |Ops(c)| - i
  {
    var ops := Ops(c);
    if i >= |ops| then Fails("error")
    else
      var op := ops[i];
      var last := i == |ops| - 1;
      if op.info.Some? then
        if CompareValue(op.info.value.operatorType, op.info.value.value, total) then Holds(true)
        else if last then Holds(false)
        else OrLoop(c, total, i + 1, fixedOrBound)
      else if op.condition.None? then Panic
      else if op.condition.value.operators.Operators? then
        var g := op.condition.value;
        assert op in c.operators.items;
        var bound := if fixedOrBound then |Ops(g)| else |g.conditionType|;
        match GroupLoop(g, total, 0, bound, last, fixedOrBound)
        case Return(e) => e
        case Next => OrLoop(c, total, i + 1, fixedOrBound)
      else Fails("error : condition is invalid ")
  }

  /** The evaluator with the evidently intended OR bound. */
  function Evaluate(op: Operator, total: int): Eval
  {
    CalculationOperations(op, total, true)
  }

  // ---------------------------------------------------------------------
  // Properties of the evaluator
  // ---------------------------------------------------------------------

  predicate IsLeaf(op: Operator) { op.info.Some? }

  predicate LeafHolds(op: Operator, total: int)
    requires IsLeaf(op)
  {
    CompareValue(op.info.value.operatorType, op.info.value.value, total)
  }

  /** Every operand of `c` from `i` on is a leaf comparison. */
  predicate LeavesFrom(c: Condition, i: nat)
  {
    forall k :: i <= k < |Ops(c)| ==> IsLeaf(Ops(c)[k])
  }

  /** A list of leaves under AND holds iff every leaf from `i` on holds. */
  lemma {:induction false} AndOfLeaves(c: Condition, total: int, i: nat, fixedOrBound: bool)
    requires i < |Ops(c)| && LeavesFrom(c, i)
    ensures AndLoop(c, total, i, fixedOrBound) ==
      Holds(forall k :: i <= k < |Ops(c)| ==> LeafHolds(Ops(c)[k], total))
    decreases |Ops(c)| - i
  {
    if i < |Ops(c)| - 1 && LeafHolds(Ops(c)[i], total) {
      AndOfLeaves(c, total, i + 1, fixedOrBound);
    }
  }

  /** A list of leaves under OR holds iff some leaf from `i` on holds. */
  lemma {:induction false} OrOfLeaves(c: Condition, total: int, i: nat, fixedOrBound: bool)
    requires i < |Ops(c)| && LeavesFrom(c, i)
    ensures OrLoop(c, total, i, fixedOrBound) ==
      Holds(exists k :: i <= k < |Ops(c)| && LeafHolds(Ops(c)[k], total))
    decreases |Ops(c)| - i
  {
    if i < |Ops(c)| - 1 && !LeafHolds(Ops(c)[i], total) {
      OrOfLeaves(c, total, i + 1, fixedOrBound);
    }
  }

  /** An AND or OR rule over leaves: the whole evaluation. */
  lemma LeafRules(c: Condition, total: int)
    requires |Ops(c)| > 0 && LeavesFrom(c, 0)
    ensures c.conditionType == ConditionAnd ==>
      Evaluate(Operator(None, Some(c)), total) == Holds(forall k :: 0 <= k < |Ops(c)| ==> LeafHolds(Ops(c)[k], total))
    ensures c.conditionType == ConditionOr ==>
      Evaluate(Operator(None, Some(c)), total) == Holds(exists k :: 0 <= k < |Ops(c)| && LeafHolds(Ops(c)[k], total))
  {
    if c.conditionType == ConditionAnd {
      AndOfLeaves(c, total, 0, true);
      assert CalculationConditionStr(c, total, true) == AndLoop(c, total, 0, true);
    } else if c.conditionType == ConditionOr {
      OrOfLeaves(c, total, 0, true);
      assert CalculationConditionStr(c, total, true) == OrLoop(c, total, 0, true);
    }
  }

  /** An empty AND or OR list is an error, not a boolean. */
  lemma EmptyListFails(c: Condition, total: int, fixedOrBound: bool)
    requires |Ops(c)| == 0
    ensures c.conditionType == ConditionAnd || c.conditionType == ConditionOr ==>
      CalculationConditionStr(c, total, fixedOrBound) == Fails("error")
  {
  }

  /** In an OR group of leaves, the inner loop returns true at a true leaf from `j` on, before any later leaf. */
  lemma {:induction false} OrGroupOfLeaves(g: Condition, total: int, j: nat, outerLast: bool, fixedOrBound: bool)
    requires g.conditionType == ConditionOr && j < |Ops(g)| && LeavesFrom(g, j)
    ensures (exists k :: j <= k < |Ops(g)| && LeafHolds(Ops(g)[k], total)) ==>
      GroupLoop(g, total, j, |Ops(g)|, outerLast, fixedOrBound) == Return(Holds(true))
    ensures (forall k :: j <= k < |Ops(g)| ==> !LeafHolds(Ops(g)[k], total)) ==>
      GroupLoop(g, total, j, |Ops(g)|, outerLast, fixedOrBound) == (if outerLast then Return(Holds(false)) else Next)
    decreases |Ops(g)| - j
  {
    if j < |Ops(g)| - 1 && !LeafHolds(Ops(g)[j], total) {
      OrGroupOfLeaves(g, total, j + 1, outerLast, fixedOrBound);
    }
  }

  /** Inside an AND list, a satisfied nested OR group of leaves makes the whole rule true at once. */
  lemma SatisfiedOrGroupDecidesAnd(c: Condition, total: int, i: nat, fixedOrBound: bool)
    requires i < |Ops(c)| && Ops(c)[i].info.None? && Ops(c)[i].condition.Some?
    requires var g := Ops(c)[i].condition.value;
      g.conditionType == ConditionOr && |Ops(g)| > 0 && LeavesFrom(g, 0) &&
      exists k :: 0 <= k < |Ops(g)| && LeafHolds(Ops(g)[k], total)
    ensures AndLoop(c, total, i, fixedOrBound) == Holds(true)
  {
    OrGroupOfLeaves(Ops(c)[i].condition.value, total, 0, i == |Ops(c)| - 1, fixedOrBound);
  }

  /** Inside an AND list, an unsatisfied nested OR group of leaves that is not last is skipped. */
  lemma UnsatisfiedOrGroupSkipped(c: Condition, total: int, i: nat, fixedOrBound: bool)
    requires i < |Ops(c)| - 1 && Ops(c)[i].info.None? && Ops(c)[i].condition.Some?
    requires var g := Ops(c)[i].condition.value;
      g.conditionType == ConditionOr && |Ops(g)| > 0 && LeavesFrom(g, 0) &&
      forall k :: 0 <= k < |Ops(g)| ==> !LeafHolds(Ops(g)[k], total)
    ensures AndLoop(c, total, i, fixedOrBound) == AndLoop(c, total, i + 1, fixedOrBound)
  {
    OrGroupOfLeaves(Ops(c)[i].condition.value, total, 0, false, fixedOrBound);
  }

  /**
   * As written, a nested group inside an OR list is iterated up to the
   * length of its condition-type string: an "AND" group with a single
   * true operand indexes past the end of its operand list.
   */
  lemma OrBoundByTypeLengthPanics(total: int)
    ensures var leaf := Operator(Some(OperatorInfo(GreaterThanOrEqual, total)), None);
      var rule := Operator(None, Some(Condition(ConditionOr,
        Operators([Operator(None, Some(Condition(ConditionAnd, Operators([leaf]))))]))));
      CalculationOperations(rule, total, false) == Panic && Evaluate(rule, total) == Holds(true)
  {
    var leaf := Operator(Some(OperatorInfo(GreaterThanOrEqual, total)), None);
    var g := Condition(ConditionAnd, Operators([leaf]));
    var c := Condition(ConditionOr, Operators([Operator(None, Some(g))]));
    assert Ops(g) == [leaf];
    assert CalculationOperations(leaf, total, false) == Holds(true);
    assert GroupLoop(g, total, 1, 3, true, false) == Return(Panic);
    assert GroupLoop(g, total, 0, 3, true, false) == Return(Panic);
    assert OrLoop(c, total, 0, false) == Panic;
    assert CalculationConditionStr(c, total, false) == Panic;
    assert GroupLoop(g, total, 0, 1, true, true) == Return(Holds(true));
    assert OrLoop(c, total, 0, true) == Holds(true);
    assert CalculationConditionStr(c, total, true) == Holds(true);
  }

  /** With the intended bound, an OR list holds as soon as one of its nested groups is a leaf OR group with a leaf that holds. */
  lemma OrGroupInOrList(c: Condition, total: int, i: nat)
    requires i < |Ops(c)| && Ops(c)[i].info.None? && Ops(c)[i].condition.Some?
    requires var g := Ops(c)[i].condition.value;
      g.conditionType == ConditionOr && g.operators.Operators? && |Ops(g)| > 0 && LeavesFrom(g, 0) &&
      exists k :: 0 <= k < |Ops(g)| && LeafHolds(Ops(g)[k], total)
    ensures OrLoop(c, total, i, true) == Holds(true)
  {
    OrGroupOfLeaves(Ops(c)[i].condition.value, total, 0, i == |Ops(c)| - 1, true);
  }

  // ---------------------------------------------------------------------
  // getConnectionIdFilter
  // ---------------------------------------------------------------------

  /** api.Scope */
  datatype Scope = Scope(connectionId: Option<string>, connectionGroup: Option<string>, connector: Option<string>)

  const BothScopesMessage: string := "connectionId and connectionGroup cannot be used together"

  /** Position of the first `x` in `s`, |s| when absent. */
  function FirstIndex<T(==)>(s: seq<T>, x: T): (k: nat)
    ensures k <= |s|
    ensures k < |s| ==> s[k] == x
    ensures forall i :: 0 <= i < k ==> s[i] != x
  {
    if s == [] || s[0] == x then 0 else 1 + FirstIndex(s[1..], x)
  }

  /** The IDs of `s` with later repetitions dropped. */
  function Dedup(s: seq<string>): (r: seq<string>)
    ensures forall x :: x in r <==> x in s
  {
    if s == [] then []
    else
      var r := Dedup(s[..|s| - 1]);
      assert forall x :: x in s <==> x in s[..|s| - 1] || x == s[|s| - 1] by {
        assert s == s[..|s| - 1] + [s[|s| - 1]];
      }
      if s[|s| - 1] in r then r else r + [s[|s| - 1]]
  }

  predicate NoDuplicates<T(==)>(s: seq<T>)
  {
    forall i, j :: 0 <= i < j < |s| ==> s[i] != s[j]
  }

  /** The de-duplicated list has no repetition. */
  lemma {:induction false} DedupHasNoDuplicates(s: seq<string>)
    ensures NoDuplicates(Dedup(s))
  {
    if s != [] {
      DedupHasNoDuplicates(s[..|s| - 1]);
    }
  }

  /** The de-duplicated list keeps the first occurrences in their order. */
  lemma {:induction false} DedupKeepsFirstOccurrences(s: seq<string>)
    ensures forall i, j :: 0 <= i < j < |Dedup(s)| ==> FirstIndex(s, Dedup(s)[i]) < FirstIndex(s, Dedup(s)[j])
  {
    if s != [] {
      var n := |s| - 1;
      var p := s[..n];
      DedupKeepsFirstOccurrences(p);
      forall y | y in p
        ensures FirstIndex(s, y) == FirstIndex(p, y)
      {
        FirstIndexOfPrefix(p, s[n], y);
        assert p + [s[n]] == s;
      }
      if s[n] !in Dedup(p) {
        assert FirstIndex(s, s[n]) == n by {
          assert s[n] !in p;
        }
      }
    }
  }

  lemma FirstIndexOfPrefix(p: seq<string>, x: string, y: string)
    requires y in p
    ensures FirstIndex(p + [x], y) == FirstIndex(p, y)
  {
    var k := FirstIndex(p, y);
    var k' := FirstIndex(p + [x], y);
    assert k < |p|;
    assert (p + [x])[k] == y;
    assert !(k' < k);
    assert !(k < k') by {
      assert forall i :: 0 <= i < k' ==> (p + [x])[i] != y;
    }
  }

  /** The check-map loop of getConnectionIdFilter. */
  method DedupIds(ids: seq<string>) returns (checked: seq<string>)
    ensures checked == Dedup(ids)
  {
    var check: set<string> := {};
    checked := [];
    var i := 0;
    while i < |ids|
      invariant 0 <= i <= |ids|
      invariant checked == Dedup(ids[..i])
      invariant check == set x | x in checked
    {
      assert ids[..i + 1][..i] == ids[..i];
      if ids[i] !in check {
        check := check + {ids[i]};
        checked := checked + [ids[i]];
      }
      i := i + 1;
    }
    assert ids[..i] == ids;
  }

  /**
   * getConnectionIdFilter: Ok(None) is Go's nil slice (no filter);
   * `group` answers GetConnectionGroup.
   */
  method GetConnectionIdFilter(scope: Scope, group: string -> Result<seq<string>>)
    returns (r: Result<Option<seq<string>>>)
    ensures scope.connectionId.None? && scope.connectionGroup.None? ==> r == Ok(None)
    ensures scope.connectionId.Some? && scope.connectionGroup.Some? ==> r == Err(BothScopesMessage)
    ensures scope.connectionId.Some? && scope.connectionGroup.None? ==> r == Ok(Some([scope.connectionId.value]))
    ensures scope.connectionId.None? && scope.connectionGroup.Some? ==>
      var g := group(scope.connectionGroup.value);
      (g.Err? ==> r == Err("error getting connectionId , error : " + g.error + " ")) &&
      (g.Ok? && g.value == [] ==> r == Ok(None)) &&
      (g.Ok? && g.value != [] ==> r.Ok? && r.value.Some? && r.value.value == Dedup(g.value))
  {
    if scope.connectionId.None? && scope.connectionGroup.None? && scope.connector.None? {
      return Ok(None);
    }
    if scope.connectionId.Some? && scope.connectionGroup.Some? {
      return Err(BothScopesMessage);
    }
    if scope.connectionId.Some? {
      return Ok(Some([scope.connectionId.value]));
    }
    var checked: Option<seq<string>> := None;
    if scope.connectionGroup.Some? {
      var g := group(scope.connectionGroup.value);
      if g.Err? {
        return Err("error getting connectionId , error : " + g.error + " ");
      }
      if |g.value| == 0 {
        return Ok(None);
      }
      var ids := DedupIds(g.value);
      checked := Some(ids);
    }
    r := Ok(checked);
  }

  /** The filter of a group is free of repetitions and lists exactly the group's connections. */
  lemma GroupFilterIsDuplicateFree(ids: seq<string>)
    ensures NoDuplicates(Dedup(ids))
    ensures forall x :: x in Dedup(ids) <==> x in ids
    ensures |Dedup(ids)| <= |ids|
  {
    DedupHasNoDuplicates(ids);
    DedupLength(ids);
  }

  lemma {:induction false} DedupLength(s: seq<string>)
    ensures |Dedup(s)| <= |s|
  {
    if s != [] {
      DedupLength(s[..|s| - 1]);
    }
  }
}
