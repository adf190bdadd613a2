/** What an operation node does with the values of its operands, once they
    have been evaluated. Values are exact reals standing for Java floats. */
module Operations {
  import opened Errors

  const TrueValue: real := 1.0
  const FalseValue: real := 0.0

  predicate IsArithmetic(op: string) {
    op == "+" || op == "-" || op == "*" || op == "/"
  }

  predicate IsComparison(op: string) {
    op == "==" || op == "!=" || op == "<" || op == ">" || op == "<=" || op == ">="
  }

  /** A comparison outcome as the float 1 or 0. */
  function Truth(b: bool): (v: real)
    ensures v == TrueValue <==> b
    ensures v == FalseValue <==> !b
  {
    if b then TrueValue else FalseValue
  }

  /** One operand: only `-` is known, and it negates. */
  function EvaluateUnary(op: string, operand: real): (r: Outcome<real>)
    ensures r.Ok? <==> op == "-"
    ensures r.Ok? ==> r.value + operand == 0.0
    ensures r.Fail? ==> r.error == UnknownUnaryOperator(op)
  {
    if op == "-" then Ok(-operand) else Fail(UnknownUnaryOperator(op))
  }

  /** Division that refuses a zero denominator. */
  function SafeDivision(numerator: real, denominator: real): (r: Outcome<real>)
    ensures r.Fail? <==> denominator == 0.0
    ensures r.Fail? ==> r.error == DivisionByZero
    ensures r.Ok? ==> r.value * denominator == numerator
  {
    if denominator == 0.0 then Fail(DivisionByZero) else Ok(numerator / denominator)
  }

  /** Two operands, already evaluated left then right. */
  function EvaluateBinary(op: string, left: real, right: real): (r: Outcome<real>)
    ensures r.Fail? <==> (op == "/" && right == 0.0) || !(IsArithmetic(op) || IsComparison(op))
    ensures r.Fail? && op == "/" ==> r.error == DivisionByZero
    ensures r.Fail? && op == "=" ==> r.error == AssignmentNotEvaluable
    ensures r.Fail? && op != "/" && op != "=" ==> r.error == UnknownBinaryOperator(op)
    ensures IsComparison(op) ==> r.Ok? && (r.value == TrueValue || r.value == FalseValue)
    ensures op == "-" ==> r.Ok? && r.value + right == left
    ensures op == "/" ==> r == SafeDivision(left, right)
  {
    if op == "+" then Ok(left + right)
    else if op == "-" then Ok(left - right)
    else if op == "*" then Ok(left * right)
    else if op == "/" then SafeDivision(left, right)
    else if op == "==" then Ok(Truth(left == right))
    else if op == "!=" then Ok(Truth(left != right))
    else if op == "<" then Ok(Truth(left < right))
    else if op == ">" then Ok(Truth(left > right))
    else if op == "<=" then Ok(Truth(left <= right))
    else if op == ">=" then Ok(Truth(left >= right))
    else if op == "=" then Fail(AssignmentNotEvaluable)
    else Fail(UnknownBinaryOperator(op))
  }

  /** `/` is the division that refuses a zero denominator. */
  lemma DivisionIsSafe(a: real, b: real)
    ensures EvaluateBinary("/", a, b) == SafeDivision(a, b)
  {
  }

  /** A comparison yields 1 exactly when its relation holds, and 0 otherwise. */
  lemma ComparisonHolds(op: string, a: real, b: real)
    requires IsComparison(op)
    ensures EvaluateBinary(op, a, b) == Ok(1.0) || EvaluateBinary(op, a, b) == Ok(0.0)
    ensures EvaluateBinary(op, a, b) == Ok(1.0) <==>
      (|| (op == "==" && a == b) || (op == "!=" && a != b)
       || (op == "<" && a < b) || (op == ">" && a > b)
       || (op == "<=" && a <= b) || (op == ">=" && a >= b))
  {
  }

  /** The comparisons are each other's complements and mirror images. */
  lemma ComparisonDuality(a: real, b: real)
    ensures EvaluateBinary("!=", a, b).value == 1.0 - EvaluateBinary("==", a, b).value
    ensures EvaluateBinary(">=", a, b).value == 1.0 - EvaluateBinary("<", a, b).value
    ensures EvaluateBinary("<=", a, b).value == 1.0 - EvaluateBinary(">", a, b).value
    ensures EvaluateBinary(">", a, b) == EvaluateBinary("<", b, a)
    ensures EvaluateBinary("==", a, b) == EvaluateBinary("==", b, a)
  {
  }

  /** `-` undoes `+`: together with the contract of `-`, this pins `+` to the sum. */
  lemma SubtractionUndoesAddition(a: real, b: real)
    ensures EvaluateBinary("+", a, b).Ok?
    ensures EvaluateBinary("-", EvaluateBinary("+", a, b).value, b) == Ok(a)
  {
  }

  /** `/` undoes `*` for a non-zero right operand: together with the contract
      of `/`, this pins `*` to the product. */
  lemma DivisionUndoesMultiplication(a: real, b: real)
    requires b != 0.0
    ensures EvaluateBinary("*", a, b).Ok?
    ensures EvaluateBinary("/", EvaluateBinary("*", a, b).value, b) == Ok(a)
  {
    var p := EvaluateBinary("*", a, b).value;
    assert p == a * b;
    assert EvaluateBinary("/", p, b) == SafeDivision(p, b) == Ok(p / b);
    assert p / b == a * b / b;
    var c := a * b / b;
    assert c * b == a * b;
    assert (c - a) * b == 0.0;
    assert c == a;
  }

  /** `*` by zero gives zero, the case that division cannot undo. */
  lemma MultiplicationByZero(a: real)
    ensures EvaluateBinary("*", a, 0.0) == Ok(0.0)
  {
  }
}
