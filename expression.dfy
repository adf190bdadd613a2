/** The tree: a closed type with the two variants `Atom` and `Operation`,
    the assignment view of a node, and evaluation against the variables. */
module Expressions {
  import opened Errors
  import Atoms
  import Operations

  datatype Expr =
    | Atom(text: string)
    | Operation(operator: string, operands: seq<Expr>)

  /** A variable name and the expression whose value is to be stored under it. */
  datatype Assignment = Assignment(variable: string, expression: Expr)

  predicate IsAssignmentOperation(op: string, operands: seq<Expr>) {
    op == "=" && |operands| == 2 && operands[0].Atom?
  }

  /** The assignment view: present only for `=` over an atom and one more
      operand. The atom text is taken as it is, even when it is a number. */
  function AssignmentOf(e: Expr): (r: Option<Assignment>)
    ensures e.Atom? ==> r.None?
    ensures r.Some? ==> e == Operation("=", [Atom(r.value.variable), r.value.expression])
    ensures e.Operation? && IsAssignmentOperation(e.operator, e.operands) ==> r.Some?
  {
    match e
    case Atom(_) => None
    case Operation(op, operands) =>
      if IsAssignmentOperation(op, operands) then Some(Assignment(operands[0].text, operands[1])) else None
  }

  /** Evaluation: an operation evaluates its operands first (the left before
      the right), then dispatches on their number and on the symbol. */
  function Eval(e: Expr, variables: map<string, real>): (r: Outcome<real>)
    ensures r.Fail? ==> r.error.IsEvaluationError()
  {
    match e
    case Atom(text) => Atoms.Eval(text, variables)
    case Operation(op, operands) =>
      if |operands| == 1 then
        match Eval(operands[0], variables)
        case Fail(err) => Fail(err)
        case Ok(v) => Operations.EvaluateUnary(op, v)
      else if |operands| == 2 then
        match Eval(operands[0], variables)
        case Fail(err) => Fail(err)
        case Ok(left) =>
          match Eval(operands[1], variables)
          case Fail(err) => Fail(err)
          case Ok(right) => Operations.EvaluateBinary(op, left, right)
      else Fail(InvalidOperandCount(|operands|, op))
  }

  /** Any operand count other than one or two is refused, with the count in the message. */
  lemma WrongArityFails(op: string, operands: seq<Expr>, variables: map<string, real>)
    requires |operands| != 1 && |operands| != 2
    ensures Eval(Operation(op, operands), variables) == Fail(InvalidOperandCount(|operands|, op))
    ensures Message(InvalidOperandCount(|operands|, op))
      == "Invalid number of operands (" + Decimal.NatText(|operands|) + ") for operator '" + op + "'"
  {
  }

  /** With two operands both are evaluated before the symbol is looked at:
      the left operand's failure wins, then the right one's, and only then
      the operator's own errors. */
  lemma OperandFailureWins(op: string, x: Expr, y: Expr, variables: map<string, real>)
    ensures Eval(x, variables).Fail? ==> Eval(Operation(op, [x, y]), variables) == Fail(Eval(x, variables).error)
    ensures Eval(x, variables).Ok? && Eval(y, variables).Fail?
      ==> Eval(Operation(op, [x, y]), variables) == Fail(Eval(y, variables).error)
    ensures Eval(x, variables).Ok? && Eval(y, variables).Ok? ==>
      Eval(Operation(op, [x, y]), variables) == Operations.EvaluateBinary(op, Eval(x, variables).value, Eval(y, variables).value)
  {
  }

  /** With one operand the operand is evaluated first; only then is an
      unknown unary symbol refused. */
  lemma UnaryOperandFirst(op: string, x: Expr, variables: map<string, real>)
    ensures Eval(x, variables).Fail? ==> Eval(Operation(op, [x]), variables) == Fail(Eval(x, variables).error)
    ensures Eval(x, variables).Ok? && op != "-"
      ==> Eval(Operation(op, [x]), variables) == Fail(UnknownUnaryOperator(op))
    ensures Eval(x, variables).Ok? && op == "-"
      ==> Eval(Operation(op, [x]), variables) == Ok(-Eval(x, variables).value)
  {
  }

  /** `/` fails with the division-by-zero error exactly when the right value
      is zero, and otherwise gives the quotient of the two values. */
  lemma DivisionByZeroExactly(x: Expr, y: Expr, variables: map<string, real>)
    requires Eval(x, variables).Ok? && Eval(y, variables).Ok?
    ensures Eval(Operation("/", [x, y]), variables) == Fail(DivisionByZero) <==> Eval(y, variables).value == 0.0
    ensures Eval(y, variables).value != 0.0 ==>
      Eval(Operation("/", [x, y]), variables) == Ok(Eval(x, variables).value / Eval(y, variables).value)
  {
    var a, b := Eval(x, variables).value, Eval(y, variables).value;
    OperandFailureWins("/", x, y, variables);
    Operations.DivisionIsSafe(a, b);
  }

  /** `=` below the root, and any symbol that is neither arithmetic nor a
      comparison, fail once both operands have evaluated. */
  lemma BinarySymbolErrors(op: string, x: Expr, y: Expr, variables: map<string, real>)
    requires Eval(x, variables).Ok? && Eval(y, variables).Ok?
    ensures op == "=" ==> Eval(Operation(op, [x, y]), variables) == Fail(AssignmentNotEvaluable)
    ensures !Operations.IsArithmetic(op) && !Operations.IsComparison(op) && op != "="
      ==> Eval(Operation(op, [x, y]), variables) == Fail(UnknownBinaryOperator(op))
  {
  }

  /** Comparisons on trees yield exactly 1 or 0, and 1 exactly when the relation holds. */
  lemma ComparisonIsBoolean(op: string, x: Expr, y: Expr, variables: map<string, real>)
    requires Operations.IsComparison(op)
    requires Eval(x, variables).Ok? && Eval(y, variables).Ok?
    ensures var r := Eval(Operation(op, [x, y]), variables);
      r == Ok(1.0) || r == Ok(0.0)
    ensures var a, b := Eval(x, variables).value, Eval(y, variables).value;
      Eval(Operation(op, [x, y]), variables) == Ok(1.0) <==>
        (|| (op == "==" && a == b) || (op == "!=" && a != b)
         || (op == "<" && a < b) || (op == ">" && a > b)
         || (op == "<=" && a <= b) || (op == ">=" && a >= b))
  {
    var a, b := Eval(x, variables).value, Eval(y, variables).value;
    OperandFailureWins(op, x, y, variables);
    Operations.ComparisonHolds(op, a, b);
  }

  /** `k` unary minus nodes around `e`. */
  function Negations(k: nat, e: Expr): Expr {
    if k == 0 then e else Operation("-", [Negations(k - 1, e)])
  }

  /** Negation chains compose: an even number of minuses is the identity,
      an odd number negates; a failure inside passes through unchanged. */
  lemma {:induction false} NegationChain(k: nat, e: Expr, variables: map<string, real>)
    ensures Eval(e, variables).Fail? ==> Eval(Negations(k, e), variables) == Eval(e, variables)
    ensures Eval(e, variables).Ok? ==>
      Eval(Negations(k, e), variables)
        == Ok(if k % 2 == 0 then Eval(e, variables).value else -Eval(e, variables).value)
  {
    if k > 0 {
      var inner := Negations(k - 1, e);
      assert Negations(k, e) == Operation("-", [inner]);
      NegationChain(k - 1, e, variables);
      NegateOnce(inner, variables);
      if Eval(e, variables).Ok? {
        var v, w := Eval(e, variables).value, Eval(inner, variables).value;
        assert Eval(Negations(k, e), variables) == Ok(-w);
        Parity(k);
        if k % 2 == 0 {
          assert w == -v;
        } else {
          assert w == v;
        }
      }
    }
  }

  lemma NegateOnce(x: Expr, variables: map<string, real>)
    ensures Eval(Operation("-", [x]), variables)
         == if Eval(x, variables).Ok? then Ok(-Eval(x, variables).value) else Eval(x, variables)
  {
    UnaryOperandFirst("-", x, variables);
  }

  lemma Parity(k: nat)
    requires k > 0
    ensures (k - 1) % 2 == 0 <==> k % 2 == 1
  {
  }

  /** Seven minuses on 42, then `+ 10`, give -32. */
  lemma SevenNegationsPlusTen(variables: map<string, real>)
    ensures Eval(Operation("+", [Negations(7, Atom("42")), Atom("10")]), variables) == Ok(-32.0)
  {
    var minus := Negations(7, Atom("42"));
    assert Eval(minus, variables) == Ok(-42.0) by {
      assert Decimal.NatText(42) == "42";
      Atoms.NumeralValue(42, variables);
      NegationChain(7, Atom("42"), variables);
    }
    assert Eval(Atom("10"), variables) == Ok(10.0) by {
      assert Decimal.NatText(10) == "10";
      Atoms.NumeralValue(10, variables);
    }
    assert Eval(Operation("+", [minus, Atom("10")]), variables) == Operations.EvaluateBinary("+", -42.0, 10.0);
  }

  /** The atom texts of a tree. */
  function Names(e: Expr): set<string> {
    match e
    case Atom(text) => {text}
    case Operation(_, operands) => set i, n | 0 <= i < |operands| && n in Names(operands[i]) :: n
  }

  /** Two variable maps that agree on a name. */
  predicate AgreeOn(m1: map<string, real>, m2: map<string, real>, name: string) {
    (name in m1 <==> name in m2) && (name in m1 ==> m1[name] == m2[name])
  }

  /** Evaluation only reads the variables the tree names: maps that agree on
      those give the same outcome. */
  lemma {:induction false} EvalReadsOnlyNames(e: Expr, m1: map<string, real>, m2: map<string, real>)
    requires forall n | n in Names(e) :: AgreeOn(m1, m2, n)
    ensures Eval(e, m1) == Eval(e, m2)
  {
    match e
    case Atom(text) =>
      assert text in Names(e);
    case Operation(op, operands) =>
      if |operands| == 1 || |operands| == 2 {
        forall i | 0 <= i < |operands|
          ensures Eval(operands[i], m1) == Eval(operands[i], m2)
        {
          forall n | n in Names(operands[i]) ensures AgreeOn(m1, m2, n) {
            assert n in Names(e);
          }
          EvalReadsOnlyNames(operands[i], m1, m2);
        }
      }
  }
}
