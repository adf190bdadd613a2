/** Whole lines through the lexer, the parser and the interpreter: the
    syntax errors reported for malformed input, and the answers to a few
    well-formed lines and sessions. */
module LineScenarios {
  import opened Chars
  import opened Tokens
  import opened Errors
  import opened Lexing
  import opened Parsing
  import opened ParsingLaws
  import opened Interpreting
  import Decimal
  import Atoms
  import Expressions
  import Operations

  lemma GreaterThanText()
    ensures Render([AtomToken("2"), OperatorToken(">"), AtomToken("1")], [true, true, false]) == "2 > 1"
  {
  }

  lemma GreaterThanLexemes()
    ensures Renderable([AtomToken("2"), OperatorToken(">"), AtomToken("1")], [true, true, false])
  {
  }

  /** `2 > 1` is a number, a one-character operator and a number. */
  lemma ScanGreaterThan()
    ensures Scan("2 > 1", 0) == [AtomToken("2"), OperatorToken(">"), AtomToken("1")]
  {
    GreaterThanText();
    GreaterThanLexemes();
    ScanRendered([AtomToken("2"), OperatorToken(">"), AtomToken("1")], [true, true, false]);
  }

  /** A comparison symbol is not in the parser's table. */
  lemma GreaterThanIsUnknown()
    ensures ParseLine("2 > 1") == Fail(UnknownOperator(">"))
  {
    ScanGreaterThan();
    UnknownSymbolAfterOperand("2", ">", [AtomToken("1")], 0, false);
    assert [AtomToken("2"), OperatorToken(">"), AtomToken("1")] == [AtomToken("2"), OperatorToken(">")] + [AtomToken("1")];
  }

  lemma DoubleEqualsText()
    ensures Render([AtomToken("3"), OperatorToken("="), OperatorToken("="), AtomToken("6"), OperatorToken("/"), AtomToken("2")], [false, false, false, false, false, false]) == "3==6/2"
  {
    assert Render([AtomToken("6"), OperatorToken("/"), AtomToken("2")], [false, false, false]) == "6/2";
  }

  lemma DoubleEqualsLexemes()
    ensures Renderable([AtomToken("3"), OperatorToken("="), OperatorToken("="), AtomToken("6"), OperatorToken("/"), AtomToken("2")], [false, false, false, false, false, false])
  {
  }

  /** `==` is two one-character operators. */
  lemma ScanDoubleEquals()
    ensures Scan("3==6/2", 0) == [AtomToken("3"), OperatorToken("="), OperatorToken("="), AtomToken("6"), OperatorToken("/"), AtomToken("2")]
  {
    DoubleEqualsText();
    DoubleEqualsLexemes();
    ScanRendered([AtomToken("3"), OperatorToken("="), OperatorToken("="), AtomToken("6"), OperatorToken("/"), AtomToken("2")], [false, false, false, false, false, false]);
  }

  /** `==` is two assignment symbols, and the second cannot begin the
      right-hand side of the first. */
  lemma DoubleEqualsIsInvalidStart()
    ensures ParseLine("3==6/2") == Fail(InvalidStart("="))
  {
    ScanDoubleEquals();
    var ts := [AtomToken("3"), OperatorToken("="), OperatorToken("="), AtomToken("6"), OperatorToken("/"), AtomToken("2")];
    assert ts[1..][1..] == [OperatorToken("=")] + ts[3..];
    InvalidStartToken(OperatorToken("="), ts[3..], RightPower("="), false);
    assert Loop(Expressions.Atom("3"), ts[1..], 0, false) == Fail(InvalidStart("="));
  }

  lemma NameAfterNumberText()
    ensures Render([AtomToken("10"), AtomToken("x"), OperatorToken("-"), AtomToken("98")], [false, true, true, false]) == "10x - 98"
  {
    assert Render([OperatorToken("-"), AtomToken("98")], [true, false]) == "- 98";
  }

  lemma NameAfterNumberLexemes()
    ensures Renderable([AtomToken("10"), AtomToken("x"), OperatorToken("-"), AtomToken("98")], [false, true, true, false])
  {
  }

  /** A letter ends a number and starts a name. */
  lemma ScanNameAfterNumber()
    ensures Scan("10x - 98", 0) == [AtomToken("10"), AtomToken("x"), OperatorToken("-"), AtomToken("98")]
  {
    NameAfterNumberText();
    NameAfterNumberLexemes();
    ScanRendered([AtomToken("10"), AtomToken("x"), OperatorToken("-"), AtomToken("98")], [false, true, true, false]);
  }

  /** A name glued to a number is a second operand where an operator belongs. */
  lemma NameAfterNumberExpectsOperator()
    ensures ParseLine("10x - 98") == Fail(ExpectedOperator("x"))
  {
    ScanNameAfterNumber();
    var rest := [OperatorToken("-"), AtomToken("98")];
    assert [AtomToken("10"), AtomToken("x"), OperatorToken("-"), AtomToken("98")] == [AtomToken("10"), AtomToken("x")] + rest;
    OperandAfterOperand("10", "x", rest, 0, false);
  }

  lemma LeadingAmpersandText()
    ensures Render([OperatorToken("&"), AtomToken("10"), OperatorToken("-"), AtomToken("98")], [false, true, true, false]) == "&10 - 98"
  {
    assert Render([OperatorToken("-"), AtomToken("98")], [true, false]) == "- 98";
  }

  lemma LeadingAmpersandLexemes()
    ensures Renderable([OperatorToken("&"), AtomToken("10"), OperatorToken("-"), AtomToken("98")], [false, true, true, false])
  {
  }

  /** Any other symbol is an operator token. */
  lemma ScanLeadingAmpersand()
    ensures Scan("&10 - 98", 0) == [OperatorToken("&"), AtomToken("10"), OperatorToken("-"), AtomToken("98")]
  {
    LeadingAmpersandText();
    LeadingAmpersandLexemes();
    ScanRendered([OperatorToken("&"), AtomToken("10"), OperatorToken("-"), AtomToken("98")], [false, true, true, false]);
  }

  /** A line that starts with a symbol other than `-` or `(`. */
  lemma LeadingSymbolIsInvalidStart()
    ensures ParseLine("&10 - 98") == Fail(InvalidStart("&"))
  {
    ScanLeadingAmpersand();
    var rest := [AtomToken("10"), OperatorToken("-"), AtomToken("98")];
    assert [OperatorToken("&"), AtomToken("10"), OperatorToken("-"), AtomToken("98")] == [OperatorToken("&")] + rest;
    InvalidStartToken(OperatorToken("&"), rest, 0, false);
  }

  lemma InfixAmpersandText()
    ensures Render([AtomToken("10"), OperatorToken("&"), AtomToken("98")], [true, true, false]) == "10 & 98"
  {
  }

  lemma InfixAmpersandLexemes()
    ensures Renderable([AtomToken("10"), OperatorToken("&"), AtomToken("98")], [true, true, false])
  {
  }

  /** An unknown symbol between two numbers. */
  lemma ScanInfixAmpersand()
    ensures Scan("10 & 98", 0) == [AtomToken("10"), OperatorToken("&"), AtomToken("98")]
  {
    InfixAmpersandText();
    InfixAmpersandLexemes();
    ScanRendered([AtomToken("10"), OperatorToken("&"), AtomToken("98")], [true, true, false]);
  }

  /** An unknown symbol between two operands. */
  lemma InfixSymbolIsUnknown()
    ensures ParseLine("10 & 98") == Fail(UnknownOperator("&"))
  {
    ScanInfixAmpersand();
    assert [AtomToken("10"), OperatorToken("&"), AtomToken("98")] == [AtomToken("10"), OperatorToken("&")] + [AtomToken("98")];
    UnknownSymbolAfterOperand("10", "&", [AtomToken("98")], 0, false);
  }

  /** An operator symbol with a space on either side is one operator token. */
  lemma ScanSpacedOperator(s: string, i: nat, tail: seq<Token>)
    requires i + 3 <= |s| && s[i] == ' ' && s[i + 2] == ' '
    requires !IsWhitespace(s[i + 1]) && !IsLetterOrDigit(s[i + 1]) && s[i + 1] != '.'
    requires Scan(s, i + 3) == tail
    ensures Scan(s, i) == [OperatorToken([s[i + 1]])] + tail
  {
    ScanSpace(s, i + 2);
    ScanSymbol(s, i + 1);
    ScanSpace(s, i);
  }

  lemma MissingClosingText()
    ensures Render([OperatorToken("("), OperatorToken("("), AtomToken("75"), OperatorToken("+"), AtomToken("27"), OperatorToken(")")], [false, false, true, true, false, false]) == "((75 + 27)"
  {
    assert Render([OperatorToken("("), AtomToken("75"), OperatorToken("+"), AtomToken("27"), OperatorToken(")")], [false, true, true, false, false]) == "(75 + 27)" by {
      ParenthesisedSumText();
    }
  }

  lemma MissingClosingLexemes()
    ensures Renderable([OperatorToken("("), OperatorToken("("), AtomToken("75"), OperatorToken("+"), AtomToken("27"), OperatorToken(")")], [false, false, true, true, false, false])
  {
  }

  /** One `(` more than `)`. */
  lemma ScanMissingClosing()
    ensures Scan("((75 + 27)", 0) == [OpenParenthesis] + [OpenParenthesis, AtomToken("75"), OperatorToken("+"), AtomToken("27"), CloseParenthesis]
  {
    MissingClosingText();
    MissingClosingLexemes();
    ScanRendered([OperatorToken("("), OperatorToken("("), AtomToken("75"), OperatorToken("+"), AtomToken("27"), OperatorToken(")")], [false, false, true, true, false, false]);
  }

  /** One `)` short: the input ends inside the outer parentheses. */
  lemma MissingClosingParenthesis()
    ensures ParseLine("((75 + 27)") == Fail(UnterminatedParenthesis)
  {
    ScanMissingClosing();
    UnclosedAroundPair("75", "+", "27");
  }

  lemma ExtraClosingText()
    ensures Render([OperatorToken("("), AtomToken("75"), OperatorToken("+"), AtomToken("27"), OperatorToken(")"), OperatorToken(")")], [false, true, true, false, false, false]) == "(75 + 27))"
  {
    assert Render([AtomToken("27"), OperatorToken(")"), OperatorToken(")")], [false, false, false]) == "27))";
  }

  lemma ExtraClosingLexemes()
    ensures Renderable([OperatorToken("("), AtomToken("75"), OperatorToken("+"), AtomToken("27"), OperatorToken(")"), OperatorToken(")")], [false, true, true, false, false, false])
  {
  }

  /** One `)` more than `(`. */
  lemma ScanExtraClosing()
    ensures Scan("(75 + 27))", 0) == [OpenParenthesis, AtomToken("75"), OperatorToken("+"), AtomToken("27"), CloseParenthesis] + [CloseParenthesis]
  {
    ExtraClosingText();
    ExtraClosingLexemes();
    ScanRendered([OperatorToken("("), AtomToken("75"), OperatorToken("+"), AtomToken("27"), OperatorToken(")"), OperatorToken(")")], [false, true, true, false, false, false]);
  }

  /** One `)` too many: it turns up at the top level. */
  lemma ExtraClosingParenthesis()
    ensures ParseLine("(75 + 27))") == Fail(UnexpectedClosingParenthesis)
  {
    ScanExtraClosing();
    ClosedTwiceAfterPair("75", "+", "27");
  }

  /** The texts the interpreter prints for the syntax errors above. */
  lemma SyntaxErrorMessages()
    ensures Message(UnknownOperator(">")) == "Unknown operator: '>'"
    ensures Message(InvalidStart("=")) == "Invalid start of expression: ="
    ensures Message(ExpectedOperator("x")) == "Expected operator, but found: x"
    ensures Message(InvalidStart("&")) == "Invalid start of expression: &"
    ensures Message(UnknownOperator("&")) == "Unknown operator: '&'"
    ensures Message(UnterminatedParenthesis) == "Expected ')', but reached end of input"
    ensures Message(UnexpectedClosingParenthesis) == "Unexpected ')'"
  {
  }

  /** A line that does not parse answers its parse error's text and
      changes no variable. */
  lemma SyntaxErrorLines(variables: map<string, real>, shortest: real -> string)
    ensures Step(variables, "((75 + 27)", shortest) == (Failure(UnterminatedParenthesis), variables)
    ensures Step(variables, "(75 + 27))", shortest) == (Failure(UnexpectedClosingParenthesis), variables)
    ensures Step(variables, "&10 - 98", shortest) == (Failure(InvalidStart("&")), variables)
    ensures Step(variables, "10x - 98", shortest) == (Failure(ExpectedOperator("x")), variables)
    ensures Step(variables, "10 & 98", shortest) == (Failure(UnknownOperator("&")), variables)
    ensures Failure(UnterminatedParenthesis).Value() == "Expected ')', but reached end of input"
    ensures Failure(UnexpectedClosingParenthesis).Value() == "Unexpected ')'"
    ensures Failure(InvalidStart("&")).Value() == "Invalid start of expression: &"
    ensures Failure(ExpectedOperator("x")).Value() == "Expected operator, but found: x"
    ensures Failure(UnknownOperator("&")).Value() == "Unknown operator: '&'"
  {
    MissingClosingParenthesis();
    ExtraClosingParenthesis();
    LeadingSymbolIsInvalidStart();
    NameAfterNumberExpectsOperator();
    InfixSymbolIsUnknown();
    SyntaxErrorMessages();
  }

  // ---------------------------------------------------------------------
  // Well-formed lines

  /** One more minus token in front of a run of them. */
  lemma PrependMinus(k: nat, rest: seq<Token>, tail: seq<Token>)
    requires k > 0 && rest == Minuses(k - 1) + tail
    ensures [Minus] + rest == Minuses(k) + tail
  {
  }

  /** A run of `k` minus signs scans to `k` minus tokens. */
  lemma {:induction false} ScanMinusRun(s: string, i: nat, k: nat)
    requires i + k <= |s|
    requires forall m | i <= m < i + k :: s[m] == '-'
    ensures Scan(s, i) == Minuses(k) + Scan(s, i + k)
    decreases k
  {
    if k > 0 {
      ScanMinusRun(s, i + 1, k - 1);
      assert s[i] == '-' && [s[i]] == "-";
      ScanSymbol(s, i);
      PrependMinus(k, Scan(s, i + 1), Scan(s, i + k));
    }
  }

  /** The tokens of `42 + 10` at the end of a line. */
  lemma ScanFortyTwoPlusTen(s: string, i: nat)
    requires |s| == i + 7
    requires s[i] == '4' && s[i + 1] == '2' && s[i + 2] == ' ' && s[i + 3] == '+' && s[i + 4] == ' ' && s[i + 5] == '1' && s[i + 6] == '0'
    ensures Scan(s, i) == [AtomToken("42")] + [OperatorToken("+"), AtomToken("10")]
  {
    assert Scan(s, i + 5) == [AtomToken("10")] by {
      ScanDigitRun(s, i + 5, i + 7);
      assert s[i + 5..i + 7] == "10";
      assert Scan(s, i + 7) == [];
    }
    ScanSpacedOperator(s, i + 2, [AtomToken("10")]);
    assert [s[i + 3]] == "+";
    ScanDigitRun(s, i, i + 2);
    assert s[i..i + 2] == "42";
  }

  lemma ScanNegationChain(s: string)
    requires |s| == 15 && s[0] == '-' && s[1] == ' '
    requires forall k | 2 <= k < 8 :: s[k] == '-'
    requires s[8] == '4' && s[9] == '2' && s[10] == ' ' && s[11] == '+' && s[12] == ' ' && s[13] == '1' && s[14] == '0'
    ensures Scan(s, 0) == Minuses(7) + [AtomToken("42")] + [OperatorToken("+"), AtomToken("10")]
  {
    ScanFortyTwoPlusTen(s, 8);
    ScanMinusRun(s, 2, 6);
    assert Scan(s, 1) == Scan(s, 2);
    ScanSymbol(s, 0);
    assert Minuses(7) == [Minus] + Minuses(6);
  }

  lemma ParseNegationChain()
    ensures ParseLine("- ------42 + 10")
         == Ok(Expressions.Operation("+", [Expressions.Negations(7, Expressions.Atom("42")), Expressions.Atom("10")]))
  {
    var rest := [OperatorToken("+"), AtomToken("10")];
    var negated := Expressions.Negations(7, Expressions.Atom("42"));
    var sum := Expressions.Operation("+", [negated, Expressions.Atom("10")]);
    var s := "- ------42 + 10";
    assert |s| == 15 && s[0] == '-' && s[1] == ' ';
    assert s[8] == '4' && s[9] == '2' && s[10] == ' ' && s[11] == '+' && s[12] == ' ' && s[13] == '1' && s[14] == '0';
    ScanNegationChain(s);
    NegationRun(7, "42", rest, false);
    assert rest[1..] == [AtomToken("10")];
    assert Expression([AtomToken("10")], 11, false) == Ok(Parsed(Expressions.Atom("10"), []));
    assert Loop(sum, [], 0, false) == Ok(Parsed(sum, []));
    assert Loop(negated, rest, 0, false) == Ok(Parsed(sum, []));
  }

  /** Seven minuses, one of them apart, then `+ 10`: -32. */
  lemma NegationChainLine(variables: map<string, real>, shortest: real -> string)
    ensures Step(variables, "- ------42 + 10", shortest) == (Success("-32"), variables)
  {
    ParseNegationChain();
    Expressions.SevenNegationsPlusTen(variables);
    FormatMinusThirtyTwo(shortest);
  }

  lemma FormatMinusThirtyTwo(shortest: real -> string)
    ensures FormatResult(-32.0, shortest) == "-32"
  {
    assert IntCast(-32.0) == -32;
    assert Decimal.NatText(32) == "32";
  }

  lemma ParenthesisedSumText()
    ensures Render([OperatorToken("("), AtomToken("75"), OperatorToken("+"), AtomToken("27"), OperatorToken(")")], [false, true, true, false, false]) == "(75 + 27)"
  {
    assert Render([OperatorToken("+"), AtomToken("27"), OperatorToken(")")], [true, false, false]) == "+ 27)";
  }

  lemma ParenthesisedSumLexemes()
    ensures Renderable([OperatorToken("("), AtomToken("75"), OperatorToken("+"), AtomToken("27"), OperatorToken(")")], [false, true, true, false, false])
  {
  }

  /** A sum in parentheses. */
  lemma ScanParenthesisedSum()
    ensures Scan("(75 + 27)", 0) == [OpenParenthesis, AtomToken("75"), OperatorToken("+"), AtomToken("27"), CloseParenthesis] + []
  {
    ParenthesisedSumText();
    ParenthesisedSumLexemes();
    ScanRendered([OperatorToken("("), AtomToken("75"), OperatorToken("+"), AtomToken("27"), OperatorToken(")")], [false, true, true, false, false]);
  }

  lemma ParseParenthesisedSum()
    ensures ParseLine("(75 + 27)") == Ok(Expressions.Operation("+", [Expressions.Atom("75"), Expressions.Atom("27")]))
  {
    var sum := Expressions.Operation("+", [Expressions.Atom("75"), Expressions.Atom("27")]);
    ScanParenthesisedSum();
    ParenthesisedPair("75", "+", "27", [], false);
    assert Loop(sum, [], 0, false) == Ok(Parsed(sum, []));
  }

  lemma NumeralTexts()
    ensures Decimal.NatText(0) == "0" && Decimal.NatText(42) == "42"
    ensures Decimal.NatText(75) == "75" && Decimal.NatText(27) == "27" && Decimal.NatText(102) == "102"
    ensures Decimal.NatText(67) == "67"
  {
  }

  /** A line that parses to a tree that is not an assignment answers with
      the value of the tree and changes nothing. */
  lemma EvaluatedLine(variables: map<string, real>, line: string, e: Expressions.Expr, shortest: real -> string)
    requires ParseLine(line) == Ok(e) && Expressions.AssignmentOf(e).None?
    ensures Step(variables, line, shortest) == (Evaluated(e, variables, shortest), variables)
  {
  }

  /** Two numerals under a binary symbol evaluate as their numbers do. */
  lemma NumeralOperands(op: string, m: nat, n: nat, variables: map<string, real>)
    ensures Expressions.Eval(Expressions.Operation(op, [Expressions.Atom(Decimal.NatText(m)), Expressions.Atom(Decimal.NatText(n))]), variables)
         == Operations.EvaluateBinary(op, m as real, n as real)
  {
    Atoms.NumeralValue(m, variables);
    Atoms.NumeralValue(n, variables);
  }

  lemma EvalParenthesisedSum(variables: map<string, real>, shortest: real -> string)
    ensures Evaluated(Expressions.Operation("+", [Expressions.Atom("75"), Expressions.Atom("27")]), variables, shortest)
         == Success("102")
  {
    NumeralTexts();
    NumeralOperands("+", 75, 27, variables);
    FormatNatural(102, shortest);
  }

  /** `(75 + 27)`: the parentheses add nothing; 102. */
  lemma ParenthesisedSumLine(variables: map<string, real>, shortest: real -> string)
    ensures Step(variables, "(75 + 27)", shortest) == (Success("102"), variables)
  {
    var sum := Expressions.Operation("+", [Expressions.Atom("75"), Expressions.Atom("27")]);
    ParseParenthesisedSum();
    EvaluatedLine(variables, "(75 + 27)", sum, shortest);
    EvalParenthesisedSum(variables, shortest);
  }

  lemma DivisionByZeroText()
    ensures Render([AtomToken("42"), OperatorToken("/"), AtomToken("0")], [true, true, false]) == "42 / 0"
  {
  }

  lemma DivisionByZeroLexemes()
    ensures Renderable([AtomToken("42"), OperatorToken("/"), AtomToken("0")], [true, true, false])
  {
  }

  /** A quotient of two numbers. */
  lemma ScanDivisionByZero()
    ensures Scan("42 / 0", 0) == [AtomToken("42"), OperatorToken("/"), AtomToken("0")]
  {
    DivisionByZeroText();
    DivisionByZeroLexemes();
    ScanRendered([AtomToken("42"), OperatorToken("/"), AtomToken("0")], [true, true, false]);
  }

  lemma ParseDivisionByZero()
    ensures ParseLine("42 / 0") == Ok(Expressions.Operation("/", [Expressions.Atom("42"), Expressions.Atom("0")]))
  {
    ScanDivisionByZero();
    TwoOperands("42", "/", "0");
  }

  lemma EvalDivisionByZero(variables: map<string, real>, shortest: real -> string)
    ensures Evaluated(Expressions.Operation("/", [Expressions.Atom("42"), Expressions.Atom("0")]), variables, shortest)
         == Failure(DivisionByZero)
  {
    NumeralTexts();
    NumeralOperands("/", 42, 0, variables);
  }

  /** `42 / 0` fails, and the variables stay as they were. */
  lemma DivisionByZeroLine(variables: map<string, real>, shortest: real -> string)
    ensures Step(variables, "42 / 0", shortest) == (Failure(DivisionByZero), variables)
  {
    var quotient := Expressions.Operation("/", [Expressions.Atom("42"), Expressions.Atom("0")]);
    ParseDivisionByZero();
    EvaluatedLine(variables, "42 / 0", quotient, shortest);
    EvalDivisionByZero(variables, shortest);
  }

  lemma UndefinedSumText()
    ensures Render([AtomToken("a"), OperatorToken("+"), AtomToken("2")], [true, true, false]) == "a + 2"
  {
  }

  lemma UndefinedSumLexemes()
    ensures Renderable([AtomToken("a"), OperatorToken("+"), AtomToken("2")], [true, true, false])
  {
  }

  /** A sum of a name and a number. */
  lemma ScanUndefinedSum()
    ensures Scan("a + 2", 0) == [AtomToken("a"), OperatorToken("+"), AtomToken("2")]
  {
    UndefinedSumText();
    UndefinedSumLexemes();
    ScanRendered([AtomToken("a"), OperatorToken("+"), AtomToken("2")], [true, true, false]);
  }

  lemma ParseUndefinedSum()
    ensures ParseLine("a + 2") == Ok(Expressions.Operation("+", [Expressions.Atom("a"), Expressions.Atom("2")]))
  {
    ScanUndefinedSum();
    TwoOperands("a", "+", "2");
  }

  /** A name never assigned is reported by name. */
  lemma UndefinedVariableLine(shortest: real -> string)
    ensures Step(map[], "a + 2", shortest) == (Failure(UndefinedVariable("a")), map[])
  {
    ParseUndefinedSum();
    Atoms.PatternsDisjoint("a");
  }

  /** `y = ` and a numeral: `y` is bound to the number. */
  lemma AssignDigits(variables: map<string, real>, line: string, n: nat, digits: string, shortest: real -> string)
    requires n <= IntMax && digits == Decimal.NatText(n)
    requires Scan(line, 0) == [AtomToken("y"), OperatorToken("="), AtomToken(digits)]
    ensures Step(variables, line, shortest) == (Success("y = " + digits), variables["y" := n as real])
  {
    var answer := "y" + " = " + digits;
    assert answer == "y = " + digits by {
      assert "y" + " = " == "y = ";
    }
    assert Step(variables, line, shortest) == (Success(answer), variables["y" := n as real]) by {
      AssignNumeral(variables, line, "y", n, shortest);
    }
  }

  lemma SixtySevenText()
    ensures Decimal.NatText(67) == "67" && "y = " + "67" == "y = 67"
  {
  }

  lemma AssignSixtySevenText()
    ensures Render([AtomToken("y"), OperatorToken("="), AtomToken("67")], [true, true, false]) == "y = 67"
  {
  }

  lemma AssignSixtySevenLexemes()
    ensures Renderable([AtomToken("y"), OperatorToken("="), AtomToken("67")], [true, true, false])
  {
  }

  /** An assignment of a number to a name. */
  lemma ScanAssignSixtySeven()
    ensures Scan("y = 67", 0) == [AtomToken("y"), OperatorToken("="), AtomToken("67")]
  {
    AssignSixtySevenText();
    AssignSixtySevenLexemes();
    ScanRendered([AtomToken("y"), OperatorToken("="), AtomToken("67")], [true, true, false]);
  }

  lemma AssignSixtySevenParts(variables: map<string, real>, shortest: real -> string)
    ensures Step(variables, "y = 67", shortest) == (Success("y = " + "67"), variables["y" := 67.0])
  {
    ScanAssignSixtySeven();
    SixtySevenText();
    AssignDigits(variables, "y = 67", 67, "67", shortest);
  }

  lemma AssignSixtySeven(variables: map<string, real>, shortest: real -> string)
    ensures Step(variables, "y = 67", shortest) == (Success("y = 67"), variables["y" := 67.0])
  {
    AssignSixtySevenParts(variables, shortest);
    SixtySevenText();
  }

  lemma NinetyEightThousandText()
    ensures Decimal.NatText(98725) == "98725" && "y = " + "98725" == "y = 98725"
  {
    assert Decimal.NatText(98) == "98";
    assert Decimal.NatText(987) == "987";
    assert Decimal.NatText(9872) == "9872";
  }

  lemma AssignNinetyEightThousandText()
    ensures Render([AtomToken("y"), OperatorToken("="), AtomToken("98725")], [true, true, false]) == "y = 98725"
  {
  }

  lemma AssignNinetyEightThousandLexemes()
    ensures Renderable([AtomToken("y"), OperatorToken("="), AtomToken("98725")], [true, true, false])
  {
  }

  /** An assignment of a number to a name. */
  lemma ScanAssignNinetyEightThousand()
    ensures Scan("y = 98725", 0) == [AtomToken("y"), OperatorToken("="), AtomToken("98725")]
  {
    AssignNinetyEightThousandText();
    AssignNinetyEightThousandLexemes();
    ScanRendered([AtomToken("y"), OperatorToken("="), AtomToken("98725")], [true, true, false]);
  }

  lemma AssignNinetyEightThousandParts(variables: map<string, real>, shortest: real -> string)
    ensures Step(variables, "y = 98725", shortest) == (Success("y = " + "98725"), variables["y" := 98725.0])
  {
    ScanAssignNinetyEightThousand();
    NinetyEightThousandText();
    AssignDigits(variables, "y = 98725", 98725, "98725", shortest);
  }

  lemma AssignNinetyEightThousand(variables: map<string, real>, shortest: real -> string)
    ensures Step(variables, "y = 98725", shortest) == (Success("y = 98725"), variables["y" := 98725.0])
  {
    AssignNinetyEightThousandParts(variables, shortest);
    NinetyEightThousandText();
  }

  /** Assigning a name twice on one interpreter object, then reading it:
      each answer repeats its assignment, the second binding replaces the
      first, and reading the name back prints the second value. */
  method ReassignmentSession(name: string, line1: string, n1: nat, line2: string, n2: nat, shortest: real -> string)
    returns (first: Result, second: Result, reread: Result)
    requires IdentifierLexeme(name)
    requires n1 <= IntMax && n2 <= IntMax
    requires Scan(line1, 0) == [AtomToken(name), OperatorToken("="), AtomToken(Decimal.NatText(n1))]
    requires Scan(line2, 0) == [AtomToken(name), OperatorToken("="), AtomToken(Decimal.NatText(n2))]
    ensures first.Value() == name + " = " + Decimal.NatText(n1)
    ensures second.Value() == name + " = " + Decimal.NatText(n2)
    ensures reread.Value() == Decimal.NatText(n2)
  {
    var interpreter := new Interpreter();
    AssignNumeral(map[], line1, name, n1, shortest);
    first := interpreter.Execute(line1, shortest);
    AssignNumeral(interpreter.variables, line2, name, n2, shortest);
    second := interpreter.Execute(line2, shortest);
    assert interpreter.variables[name] == n2 as real;
    ReadName(interpreter.variables, name, shortest);
    FormatNatural(n2, shortest);
    reread := interpreter.Execute(name, shortest);
  }

  /** `y = 67`, then `y = 98725`, on one interpreter object: each answer
      repeats its assignment. */
  method ReassignmentVariable(shortest: real -> string) returns (assignment: Result, reassignment: Result)
    ensures assignment.Value() == "y = 67"
    ensures reassignment.Value() == "y = 98725"
  {
    var interpreter := new Interpreter();
    AssignSixtySeven(interpreter.variables, shortest);
    assignment := interpreter.Execute("y = 67", shortest);
    AssignNinetyEightThousand(interpreter.variables, shortest);
    reassignment := interpreter.Execute("y = 98725", shortest);
  }
}
