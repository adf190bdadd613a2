/** The read-eval step. `Step` says what one line does to the variables and
    what the interpreter answers; the class `Interpreter` holds the
    variables as a field that its methods update in place, and is proved to
    behave as `Step`. Numbers that are not integral are printed by
    `shortest`, a parameter that stands for Java's shortest-decimal float
    printing. */
module Interpreting {
  import opened Errors
  import opened Decimal
  import opened Expressions
  import opened Parsing
  import ParsingLaws

  // ---------------------------------------------------------------------
  // Printing a value

  const IntMin: int := -0x8000_0000
  const IntMax: int := 0x7fff_ffff

  /** `Math.floor(value) == value`. */
  predicate Integral(v: real) {
    v.Floor as real == v
  }

  /** Java's `(int)` cast of a float: rounds toward zero and saturates at
      the bounds of `int`. */
  function IntCast(v: real): (i: int)
    ensures IntMin <= i <= IntMax
    ensures v >= IntMax as real ==> i == IntMax
    ensures v <= IntMin as real ==> i == IntMin
    ensures IntMin as real < v < IntMax as real && v >= 0.0 ==> i as real <= v < (i + 1) as real
    ensures IntMin as real < v < IntMax as real && v < 0.0 ==> (i - 1) as real < v <= i as real
  {
    if v >= IntMax as real then IntMax
    else if v <= IntMin as real then IntMin
    else if v >= 0.0 then v.Floor
    else -((-v).Floor)
  }

  /** Text of an optionally negative decimal integer. */
  predicate IntegerText(s: string) {
    && |s| >= 1
    && (s[0] == '-' ==> |s| >= 2 && AllDigits(s[1..]))
    && (s[0] != '-' ==> AllDigits(s))
  }

  /** `formatResult`: an integral value is printed as an `int`, any other
      value as a float. The printed integer reads back as the value, or as
      the nearest `int` bound when the value lies outside them. */
  function FormatResult(v: real, shortest: real -> string): (s: string)
    ensures Integral(v) ==> IntegerText(s)
    ensures Integral(v) && IntMin as real <= v <= IntMax as real ==> SignedValue(s) as real == v
    ensures Integral(v) && v > IntMax as real ==> SignedValue(s) == IntMax
    ensures Integral(v) && v < IntMin as real ==> SignedValue(s) == IntMin
    ensures !Integral(v) ==> s == shortest(v)
  {
    if Integral(v) then
      var i := IntCast(v);
      IntTextRoundTrip(i);
      IntText(i)
    else shortest(v)
  }

  // ---------------------------------------------------------------------
  // One line

  /** What `execute` returns: the printed value, or the exception. */
  datatype Result = Success(text: string) | Failure(error: Error)
  {
    /** `Result.value`: the printed value, or the exception's message. */
    function Value(): (v: string)
      ensures Success? ==> v == text
      ensures Failure? ==> v == Message(error)
    {
      if Success? then text else Message(error)
    }
  }

  /** `evalExpression`: the value of a tree that is not an assignment. */
  function Evaluated(e: Expr, variables: map<string, real>, shortest: real -> string): (r: Result)
    ensures r.Success? <==> Eval(e, variables).Ok?
    ensures r.Success? ==> r.text == FormatResult(Eval(e, variables).value, shortest)
    ensures r.Failure? ==> r.error == Eval(e, variables).error
  {
    match Eval(e, variables)
    case Ok(v) => Success(FormatResult(v, shortest))
    case Fail(err) => Failure(err)
  }

  /** `handleAssignment`: the value is computed before anything is stored;
      then the name is bound to it, replacing any earlier binding. */
  function Assigned(a: Assignment, variables: map<string, real>, shortest: real -> string): (r: (Result, map<string, real>))
    ensures r.0.Failure? <==> Eval(a.expression, variables).Fail?
    ensures r.0.Failure? ==> r.0.error == Eval(a.expression, variables).error && r.1 == variables
    ensures r.0.Success? ==> var v := Eval(a.expression, variables).value;
      && r.1 == variables[a.variable := v]
      && r.0.text == a.variable + " = " + FormatResult(v, shortest)
  {
    match Eval(a.expression, variables)
    case Ok(v) => (Success(a.variable + " = " + FormatResult(v, shortest)), variables[a.variable := v])
    case Fail(err) => (Failure(err), variables)
  }

  /** The name a line assigns, when it parses to an assignment. */
  function Target(line: string): Option<string> {
    match ParseLine(line)
    case Fail(_) => None
    case Ok(e) => if AssignmentOf(e).Some? then Some(AssignmentOf(e).value.variable) else None
  }

  /** `execute`: parse the line; an assignment is handled as such, any other
      tree is evaluated. Every failure is a parser or evaluation error (the
      catch-all for other exceptions is never reached), a failure leaves the
      variables alone, and a success changes at most the one binding the
      line assigns, which it reports. */
  function Step(variables: map<string, real>, line: string, shortest: real -> string): (r: (Result, map<string, real>))
    ensures r.0.Failure? ==> r.1 == variables
    ensures r.0.Failure? ==> r.0.error.IsSyntaxError() || ParsingLaws.ReachableEvaluationError(r.0.error)
    ensures Target(line).None? ==> r.1 == variables
    ensures Target(line).Some? && r.0.Success? ==> var name := Target(line).value;
      && name in r.1
      && r.1 == variables[name := r.1[name]]
      && r.0.text == name + " = " + FormatResult(r.1[name], shortest)
    ensures Target(line).Some? && r.0.Success? ==>
      Eval(AssignmentOf(ParseLine(line).value).value.expression, variables) == Ok(r.1[Target(line).value])
    ensures ParseLine(line).Ok? && Target(line).None? ==> r.0 == Evaluated(ParseLine(line).value, variables, shortest)
    ensures ParseLine(line).Fail? ==> r == (Failure(ParseLine(line).error), variables)
    ensures Target(line).Some? ==> r == Assigned(AssignmentOf(ParseLine(line).value).value, variables, shortest)
  {
    match ParseLine(line)
    case Fail(err) =>
      (Failure(err), variables)
    case Ok(e) =>
      ParsingLaws.ShapedTreeErrors(e, variables);
      match AssignmentOf(e)
      case Some(a) =>
        ParsingLaws.ShapedTreeErrors(a.expression, variables);
        Assigned(a, variables, shortest)
      case None => (Evaluated(e, variables, shortest), variables)
  }

  /** A line that is just a name prints the value bound to it, or fails
      naming it; it changes nothing. */
  lemma ReadName(variables: map<string, real>, name: string, shortest: real -> string)
    requires Lexing.IdentifierLexeme(name)
    ensures Step(variables, name, shortest)
         == (if name in variables then Success(FormatResult(variables[name], shortest))
             else Failure(UndefinedVariable(name)), variables)
  {
    Lexing.ScanNameRun(name, 0, |name|);
    assert name[0..|name|] == name;
    assert Lexing.Scan(name, 0) == [Tokens.Token(Tokens.Atom, name)];
    assert Primary([Tokens.Token(Tokens.Atom, name)], false) == Ok(Parsed(Atom(name), []));
    assert Loop(Atom(name), [], 0, false) == Ok(Parsed(Atom(name), []));
    assert Expression([Tokens.Token(Tokens.Atom, name)], 0, false) == Ok(Parsed(Atom(name), []));
    assert ParseLine(name) == Ok(Atom(name));
    Atoms.PatternsDisjoint(name);
  }

  /** An assignment commits: reading the assigned name afterwards prints
      the value the assignment reported. */
  lemma AssignmentCommits(variables: map<string, real>, line: string, shortest: real -> string)
    requires Step(variables, line, shortest).0.Success?
    requires Target(line).Some? && Lexing.IdentifierLexeme(Target(line).value)
    ensures var (r, after) := Step(variables, line, shortest);
            var name := Target(line).value;
            && Step(after, name, shortest) == (Success(FormatResult(after[name], shortest)), after)
            && r.text == name + " = " + Step(after, name, shortest).0.text
  {
    var after := Step(variables, line, shortest).1;
    ReadName(after, Target(line).value, shortest);
  }

  /** A numeral assigned to a name: the name is bound to the number and the
      answer repeats the numeral, whatever was bound before. */
  lemma AssignNumeral(variables: map<string, real>, line: string, name: string, n: nat, shortest: real -> string)
    requires n <= IntMax
    requires Lexing.Scan(line, 0) == [ParsingLaws.AtomToken(name), ParsingLaws.OperatorToken("="), ParsingLaws.AtomToken(NatText(n))]
    ensures Step(variables, line, shortest) == (Success(name + " = " + NatText(n)), variables[name := n as real])
  {
    ParsingLaws.TwoOperands(name, "=", NatText(n));
    assert ParseLine(line) == Ok(Operation("=", [Atom(name), Atom(NatText(n))]));
    Atoms.NumeralValue(n, variables);
    assert Eval(Atom(NatText(n)), variables) == Ok(n as real);
    FormatNatural(n, shortest);
  }

  /** A natural number within `int` range prints as its decimal numeral. */
  lemma FormatNatural(n: nat, shortest: real -> string)
    requires n <= IntMax
    ensures FormatResult(n as real, shortest) == NatText(n)
  {
    assert (n as real).Floor == n;
    assert IntCast(n as real) == n;
  }

  /** `a = b = c` parses as `a = (b = c)`, whose value cannot be computed:
      the line fails and no variable changes. */
  lemma NestedAssignmentFails(variables: map<string, real>, line: string, a: string, b: string, c: string, shortest: real -> string)
    requires Lexing.Scan(line, 0)
          == [ParsingLaws.AtomToken(a), ParsingLaws.OperatorToken("="), ParsingLaws.AtomToken(b),
              ParsingLaws.OperatorToken("="), ParsingLaws.AtomToken(c)]
    ensures Step(variables, line, shortest).0.Failure?
    ensures Step(variables, line, shortest).1 == variables
    ensures Eval(Atom(b), variables).Ok? && Eval(Atom(c), variables).Ok? ==>
            Step(variables, line, shortest).0 == Failure(AssignmentNotEvaluable)
  {
    ParsingLaws.AssignmentGroupsRight(a, b, c);
    var inner := Operation("=", [Atom(b), Atom(c)]);
    assert ParseLine(line) == Ok(Operation("=", [Atom(a), inner]));
    assert AssignmentOf(Operation("=", [Atom(a), inner])) == Some(Assignment(a, inner));
    assert Eval(inner, variables).Fail?;
  }

  // ---------------------------------------------------------------------
  // The interpreter object

  class Interpreter {
    /** The variables assigned so far. */
    var variables: map<string, real>

    constructor ()
      ensures variables == map[]
    {
      variables := map[];
    }

    method Execute(input: string, shortest: real -> string) returns (r: Result)
      modifies this
      ensures (r, variables) == Step(old(variables), input, shortest)
    {
      var expression := FromString(input);
      if expression.Fail? {
        return Failure(expression.error);
      }
      var assignment := AssignmentOf(expression.value);
      if assignment.Some? {
        r := HandleAssignment(assignment.value, shortest);
      } else {
        r := EvalExpression(expression.value, shortest);
      }
    }

    method HandleAssignment(assignment: Assignment, shortest: real -> string) returns (r: Result)
      modifies this
      ensures (r, variables) == Assigned(assignment, old(variables), shortest)
    {
      var value := Eval(assignment.expression, variables);
      if value.Fail? {
        return Failure(value.error);
      }
      variables := variables[assignment.variable := value.value];
      return Success(assignment.variable + " = " + FormatResult(value.value, shortest));
    }

    method EvalExpression(expression: Expr, shortest: real -> string) returns (r: Result)
      ensures r == Evaluated(expression, variables, shortest)
    {
      var value := Eval(expression, variables);
      if value.Fail? {
        return Failure(value.error);
      }
      return Success(FormatResult(value.value, shortest));
    }
  }
}
