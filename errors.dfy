/** The failures of the pipeline. Every failure in the Java code is a
    `ParserException` carrying a message; here each message is a variant of
    `Error`, and `Message` gives the exact text the exception carries. */
module Errors {
  import Chars
  import Decimal

  datatype Error =
    // evaluation of an atom
    | InvalidAtomValue(text: string)
    | UndefinedVariable(name: string)
    // evaluation of an operation
    | InvalidOperandCount(count: nat, operator: string)
    | UnknownUnaryOperator(operator: string)
    | DivisionByZero
    | AssignmentNotEvaluable
    | UnknownBinaryOperator(operator: string)
    // parsing
    | ExpectedOperator(found: string)
    | UnknownOperator(operator: string)
    | InvalidStart(found: string)
    | UnterminatedParenthesis
    | UnexpectedClosingParenthesis
    | ExpectedClosingParenthesis(found: string)
    // the interpreter's catch-all for exceptions that are not parser exceptions
    | UnknownException(message: string)
  {
    /** Raised while evaluating a tree, as opposed to while parsing it. */
    predicate IsEvaluationError() {
      || InvalidAtomValue? || UndefinedVariable? || InvalidOperandCount?
      || UnknownUnaryOperator? || DivisionByZero? || AssignmentNotEvaluable?
      || UnknownBinaryOperator?
    }

    /** Raised by the parser. */
    predicate IsSyntaxError() {
      || ExpectedOperator? || UnknownOperator? || InvalidStart?
      || UnterminatedParenthesis? || UnexpectedClosingParenthesis?
      || ExpectedClosingParenthesis?
    }
  }

  /** The position of an error's variant in the declaration. */
  function Kind(e: Error): nat {
    match e
    case InvalidAtomValue(_) => 0
    case UndefinedVariable(_) => 1
    case InvalidOperandCount(_, _) => 2
    case UnknownUnaryOperator(_) => 3
    case DivisionByZero => 4
    case AssignmentNotEvaluable => 5
    case UnknownBinaryOperator(_) => 6
    case ExpectedOperator(_) => 7
    case UnknownOperator(_) => 8
    case InvalidStart(_) => 9
    case UnterminatedParenthesis => 10
    case UnexpectedClosingParenthesis => 11
    case ExpectedClosingParenthesis(_) => 12
    case UnknownException(_) => 13
  }

  /** Which variant a message text belongs to, read off its 17th and 19th
      characters; 14 for a text that is no message. */
  function KindOf(m: string): nat {
    if |m| < 19 then (if |m| == 14 && m[0] == 'U' then 11 else 14)
    else if m[18] == ' ' then
      if m[16] == 'u' then 0 else if m[16] == 'l' then 1
      else if m[16] == 'r' then 7 else if m[16] == 'n' then 13 else 14
    else if m[18] == 'r' then
      if m[16] == 'p' then 6 else if m[16] == 't' then 10 else 14
    else if m[18] == 'o' then 2 else if m[18] == 'a' then 3
    else if m[18] == 's' then 4 else if m[18] == 'b' then 5
    else if m[18] == '\'' then 8 else if m[18] == 'x' then 9
    else if m[18] == 'f' then 12 else 14
  }

  /** The text the exception carries. */
  function Message(e: Error): string {
    match e
    case InvalidAtomValue(text) => "Invalid atom value '" + text + "'"
    case UndefinedVariable(name) => "Undefined variable '" + name + "'"
    case InvalidOperandCount(count, op) =>
      "Invalid number of operands (" + Decimal.NatText(count) + ") for operator '" + op + "'"
    case UnknownUnaryOperator(op) => "Unknown unary operator '" + op + "'"
    case DivisionByZero => "Division by zero is not allowed"
    case AssignmentNotEvaluable => "Assignment cannot be evaluated directly"
    case UnknownBinaryOperator(op) => "Unknown binary operator '" + op + "'"
    case ExpectedOperator(found) => "Expected operator, but found: " + found
    case UnknownOperator(op) => "Unknown operator: '" + op + "'"
    case InvalidStart(found) => "Invalid start of expression: " + found
    case UnterminatedParenthesis => "Expected ')', but reached end of input"
    case UnexpectedClosingParenthesis => "Unexpected ')'"
    case ExpectedClosingParenthesis(found) => "Expected ')', but found: " + found
    case UnknownException(message) => "Unknown exception: " + message
  }

  /** The first characters of a message tell which failure it reports. The
      proof goes by the shape of the message, in three groups. */
  lemma MessageKind(e: Error)
    ensures KindOf(Message(e)) == Kind(e)
  {
    if e.InvalidAtomValue? || e.UndefinedVariable? || e.UnknownUnaryOperator?
      || e.UnknownBinaryOperator? || e.UnknownOperator? {
      QuotedKind(e);
    } else if e.ExpectedOperator? || e.InvalidStart? || e.ExpectedClosingParenthesis?
      || e.UnknownException? {
      TrailingKind(e);
    } else {
      FixedKind(e);
    }
  }

  /** Messages that end with a quoted text. */
  lemma QuotedKind(e: Error)
    requires e.InvalidAtomValue? || e.UndefinedVariable? || e.UnknownUnaryOperator?
      || e.UnknownBinaryOperator? || e.UnknownOperator?
    ensures KindOf(Message(e)) == Kind(e)
  {
    match e
    case InvalidAtomValue(x) => Prefixed("Invalid atom value '", x, "'");
    case UndefinedVariable(x) => Prefixed("Undefined variable '", x, "'");
    case UnknownUnaryOperator(x) => Prefixed("Unknown unary operator '", x, "'");
    case UnknownBinaryOperator(x) => Prefixed("Unknown binary operator '", x, "'");
    case UnknownOperator(x) => Prefixed("Unknown operator: '", x, "'");
  }

  /** Messages that end with an unquoted text. */
  lemma TrailingKind(e: Error)
    requires e.ExpectedOperator? || e.InvalidStart? || e.ExpectedClosingParenthesis?
      || e.UnknownException?
    ensures KindOf(Message(e)) == Kind(e)
  {
    match e
    case ExpectedOperator(x) => Prefixed("Expected operator, but found: ", x, "");
    case InvalidStart(x) => Prefixed("Invalid start of expression: ", x, "");
    case ExpectedClosingParenthesis(x) => Prefixed("Expected ')', but found: ", x, "");
    case UnknownException(x) => Prefixed("Unknown exception: ", x, "");
  }

  /** The operand-count message and the messages with no parameter. */
  lemma FixedKind(e: Error)
    requires e.InvalidOperandCount? || e.DivisionByZero? || e.AssignmentNotEvaluable?
      || e.UnterminatedParenthesis? || e.UnexpectedClosingParenthesis?
    ensures KindOf(Message(e)) == Kind(e)
  {
    if e.InvalidOperandCount? {
      var p := "Invalid number of operands (";
      Prefixed(p, Decimal.NatText(e.count), ") for operator '");
      Prefixed(p + Decimal.NatText(e.count) + ") for operator '", e.operator, "'");
    }
  }

  /** `KindOf` reads only the first 19 characters of a message. */
  lemma Prefixed(p: string, x: string, q: string)
    requires |p| >= 19
    ensures KindOf(p + x + q) == KindOf(p) && KindOf(p + x) == KindOf(p)
  {
    assert (p + x + q)[16] == p[16] && (p + x + q)[18] == p[18];
    assert (p + x)[16] == p[16] && (p + x)[18] == p[18];
  }

  /** Different failures carry different texts: the message alone tells
      which failure happened and with what token, name or count. */
  lemma MessageIdentifiesError(e1: Error, e2: Error)
    requires Message(e1) == Message(e2)
    ensures e1 == e2
  {
    MessageKind(e1);
    MessageKind(e2);
    if e1.InvalidOperandCount? {
      OperandCountMessage(e1, e2);
    } else if e1.InvalidAtomValue? || e1.UndefinedVariable? || e1.UnknownUnaryOperator?
      || e1.UnknownBinaryOperator? || e1.UnknownOperator? {
      QuotedMessage(e1, e2);
    } else if e1.ExpectedOperator? || e1.InvalidStart? || e1.ExpectedClosingParenthesis?
      || e1.UnknownException? {
      TrailingMessage(e1, e2);
    }
  }

  lemma QuotedMessage(e1: Error, e2: Error)
    requires Kind(e1) == Kind(e2) && Message(e1) == Message(e2)
    requires e1.InvalidAtomValue? || e1.UndefinedVariable? || e1.UnknownUnaryOperator?
      || e1.UnknownBinaryOperator? || e1.UnknownOperator?
    ensures e1 == e2
  {
    match e1
    case InvalidAtomValue(x) => Quoted("Invalid atom value '", x, e2.text);
    case UndefinedVariable(x) => Quoted("Undefined variable '", x, e2.name);
    case UnknownUnaryOperator(x) => Quoted("Unknown unary operator '", x, e2.operator);
    case UnknownBinaryOperator(x) => Quoted("Unknown binary operator '", x, e2.operator);
    case UnknownOperator(x) => Quoted("Unknown operator: '", x, e2.operator);
  }

  lemma TrailingMessage(e1: Error, e2: Error)
    requires Kind(e1) == Kind(e2) && Message(e1) == Message(e2)
    requires e1.ExpectedOperator? || e1.InvalidStart? || e1.ExpectedClosingParenthesis?
      || e1.UnknownException?
    ensures e1 == e2
  {
    match e1
    case ExpectedOperator(x) => SamePrefix("Expected operator, but found: ", x, e2.found);
    case InvalidStart(x) => SamePrefix("Invalid start of expression: ", x, e2.found);
    case ExpectedClosingParenthesis(x) => SamePrefix("Expected ')', but found: ", x, e2.found);
    case UnknownException(x) => SamePrefix("Unknown exception: ", x, e2.message);
  }

  lemma OperandCountMessage(e1: Error, e2: Error)
    requires e1.InvalidOperandCount? && e2.InvalidOperandCount? && Message(e1) == Message(e2)
    ensures e1 == e2
  {
    var c1, c2 := e1.count, e2.count;
    CountThenQuoted("Invalid number of operands (", Decimal.NatText(c1), ") for operator '",
      e1.operator, Decimal.NatText(c2), e2.operator);
    Decimal.NatTextRoundTrip(c1);
    Decimal.NatTextRoundTrip(c2);
  }

  /** A digit string followed by a text that starts with `)` and then a
      quoted text: both parts can be read back. */
  lemma CountThenQuoted(p: string, a1: string, q: string, o1: string, a2: string, o2: string)
    requires Decimal.AllDigits(a1) && Decimal.AllDigits(a2) && |q| > 0 && q[0] == ')'
    requires p + a1 + q + o1 + "'" == p + a2 + q + o2 + "'"
    ensures a1 == a2 && o1 == o2
  {
    var s := p + a1 + q + o1 + "'";
    assert s[|p|..] == a1 + (q + o1 + "'");
    assert s[|p|..] == a2 + (q + o2 + "'");
    DigitsBeforeParenthesis(a1, q + o1 + "'", a2, q + o2 + "'");
    Quoted(p + a1 + q, o1, o2);
  }

  lemma SamePrefix(p: string, x: string, y: string)
    requires p + x == p + y
    ensures x == y
  {
    assert x == (p + x)[|p|..];
  }

  lemma Quoted(p: string, x: string, y: string)
    requires p + x + "'" == p + y + "'"
    ensures x == y
  {
    assert x == (p + x + "'")[|p|..|p| + |x|];
  }

  /** A digit string ends where a `)` begins. */
  lemma DigitsBeforeParenthesis(a: string, b: string, c: string, d: string)
    requires Decimal.AllDigits(a) && Decimal.AllDigits(c)
    requires |b| > 0 && b[0] == ')' && |d| > 0 && d[0] == ')'
    requires a + b == c + d
    ensures a == c
  {
    DigitRun(a, b);
    DigitRun(c, d);
    assert a == (a + b)[..|a|];
  }

  /** How many digits a text starts with. */
  function DigitRunLength(s: string): nat {
    if s == [] || !Chars.IsDigit(s[0]) then 0 else 1 + DigitRunLength(s[1..])
  }

  lemma {:induction false} DigitRun(a: string, b: string)
    requires Decimal.AllDigits(a) && |b| > 0 && !Chars.IsDigit(b[0])
    ensures DigitRunLength(a + b) == |a|
    decreases |a|
  {
    if a == [] {
      assert a + b == b;
    } else {
      assert (a + b)[1..] == a[1..] + b;
      DigitRun(a[1..], b);
    }
  }

  /** A computation that either yields a value or throws a parser exception. */
  datatype Outcome<+T> = Ok(value: T) | Fail(error: Error)

  datatype Option<+T> = None | Some(value: T)
}
