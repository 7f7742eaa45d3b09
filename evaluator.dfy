/** The evaluator (Evaluator.java): a walk over the tree that computes the
    value of the expression, or fails on a division by zero or an operator
    outside `+ - * /` (unary: `+ -`).

    `Evaluate` is `evaluate`, whose `accept` becomes a `match` on the variant
    that calls the visit function of that variant. Values are exact reals. */
module Evaluation {
  import opened Outcomes
  import opened Ast

  datatype EvalError =
    | DivisionByZero
    | UnknownOperator(op: string)
    | UnknownUnaryOperator(op: string)

  function Evaluate(e: Expr): Result<real, EvalError>
    decreases e, 1
  {
    match e
    case Num(_) => VisitNumberNode(e)
    case Bin(_, _, _) => VisitBinaryOpNode(e)
    case Un(_, _) => VisitUnaryOpNode(e)
  }

  function VisitNumberNode(e: Expr): Result<real, EvalError>
    requires e.Num?
    decreases e, 0
  {
    Ok(e.value)
  }

  /** Left operand first, then the right one, then the operator. */
  function VisitBinaryOpNode(e: Expr): Result<real, EvalError>
    requires e.Bin?
    decreases e, 0
  {
    var left :- Evaluate(e.left);
    var right :- Evaluate(e.right);
    ApplyBinary(left, e.op, right)
  }

  /** The operator applied to two values: it fails exactly on an unknown
      operator or a zero divisor, and a quotient times the divisor gives the
      dividend back. */
  function ApplyBinary(left: real, op: string, right: real): (r: Result<real, EvalError>)
    ensures r.Err? <==> !IsBinaryOp(op) || (op == "/" && right == 0.0)
    ensures op == "/" && r.Ok? ==> r.value * right == left
  {
    if op == "+" then Ok(left + right)
    else if op == "-" then Ok(left - right)
    else if op == "*" then Ok(left * right)
    else if op == "/" then
      if right == 0.0 then Err(DivisionByZero) else Ok(left / right)
    else Err(UnknownOperator(op))
  }

  function VisitUnaryOpNode(e: Expr): Result<real, EvalError>
    requires e.Un?
    decreases e, 0
  {
    var value :- Evaluate(e.operand);
    ApplyUnary(e.op, value)
  }

  /** A sign applied to a value: it fails exactly on an unknown sign, and
      keeps the magnitude of the value. */
  function ApplyUnary(op: string, value: real): (r: Result<real, EvalError>)
    ensures r.Err? <==> !IsUnaryOp(op)
    ensures r.Ok? ==> r.value == value || r.value == -value
  {
    if op == "+" then Ok(value)
    else if op == "-" then Ok(-value)
    else Err(UnknownUnaryOperator(op))
  }

  predicate IsBinaryOp(op: string) {
    op == "+" || op == "-" || op == "*" || op == "/"
  }

  predicate IsUnaryOp(op: string) {
    op == "+" || op == "-"
  }

  /** Every operator of the tree is one the evaluator knows. */
  predicate KnownOps(e: Expr) {
    match e
    case Num(_) => true
    case Bin(l, op, r) => IsBinaryOp(op) && KnownOps(l) && KnownOps(r)
    case Un(op, x) => IsUnaryOp(op) && KnownOps(x)
  }

  /** No division in the tree has a right operand that evaluates to zero. */
  predicate DivisorsNonZero(e: Expr) {
    match e
    case Num(_) => true
    case Bin(l, op, r) => DivisorsNonZero(l) && DivisorsNonZero(r) && (op == "/" ==> Evaluate(r) != Ok(0.0))
    case Un(_, x) => DivisorsNonZero(x)
  }

  /** Evaluation succeeds exactly when every operator is known and no divisor
      is zero: nothing is silently ignored and no other failure exists. */
  lemma {:induction false} EvaluateSucceedsIff(e: Expr)
    ensures Evaluate(e).Ok? <==> KnownOps(e) && DivisorsNonZero(e)
  {
    match e
    case Num(_) =>
    case Bin(l, op, r) =>
      EvaluateSucceedsIff(l);
      EvaluateSucceedsIff(r);
    case Un(op, x) =>
      EvaluateSucceedsIff(x);
  }

  /** On a tree of known operators the only possible failure is a division
      by zero. */
  lemma {:induction false} KnownOpsFailOnlyByDivision(e: Expr)
    requires KnownOps(e)
    ensures Evaluate(e).Err? ==> Evaluate(e).error == DivisionByZero
  {
    match e
    case Num(_) =>
    case Bin(l, op, r) =>
      KnownOpsFailOnlyByDivision(l);
      KnownOpsFailOnlyByDivision(r);
    case Un(op, x) =>
      KnownOpsFailOnlyByDivision(x);
  }

  /** The left operand is evaluated before the right one and before the
      operator is looked at: the first failure in that order is the one
      reported. */
  lemma EvaluationOrder(l: Expr, op: string, r: Expr)
    ensures Evaluate(l).Err? ==> Evaluate(Bin(l, op, r)) == Err(Evaluate(l).error)
    ensures Evaluate(l).Ok? && Evaluate(r).Err? ==> Evaluate(Bin(l, op, r)) == Err(Evaluate(r).error)
    ensures Evaluate(l).Ok? && Evaluate(r).Ok? ==>
      Evaluate(Bin(l, op, r)) == ApplyBinary(Evaluate(l).value, op, Evaluate(r).value)
  {
  }

  /** The four operators are the four arithmetic operations; division fails
      exactly on a zero right operand. */
  lemma BinaryArithmetic(l: Expr, op: string, r: Expr, a: real, b: real)
    requires Evaluate(l) == Ok(a) && Evaluate(r) == Ok(b)
    ensures op == "+" ==> Evaluate(Bin(l, op, r)) == Ok(a + b)
    ensures op == "-" ==> Evaluate(Bin(l, op, r)) == Ok(a - b)
    ensures op == "*" ==> Evaluate(Bin(l, op, r)) == Ok(a * b)
    ensures op == "/" ==> Evaluate(Bin(l, op, r)) == if b == 0.0 then Err(DivisionByZero) else Ok(a / b)
    ensures !IsBinaryOp(op) ==> Evaluate(Bin(l, op, r)) == Err(UnknownOperator(op))
  {
    assert Evaluate(Bin(l, op, r)) == ApplyBinary(a, op, b);
  }

  /** Unary minus negates, unary plus changes nothing, so two minuses cancel. */
  lemma UnaryArithmetic(x: Expr)
    ensures Evaluate(Un("+", x)) == Evaluate(x)
    ensures Evaluate(x).Ok? ==> Evaluate(Un("-", x)) == Ok(-Evaluate(x).value)
    ensures Evaluate(Un("-", Un("-", x))) == Evaluate(x)
    ensures forall op :: !IsUnaryOp(op) && Evaluate(x).Ok? ==>
      Evaluate(Un(op, x)) == Err(UnknownUnaryOperator(op))
  {
    match Evaluate(x)
    case Err(_) =>
      assert Evaluate(Un("-", x)) == Evaluate(x);
    case Ok(v) =>
      assert Evaluate(Un("-", x)) == Ok(-v);
      assert Evaluate(Un("-", Un("-", x))) == Ok(--v);
  }
}
