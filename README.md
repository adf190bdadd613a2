# Expression parser, modelled in Dafny

The system is a small read-eval-print interpreter for arithmetic lines
such as `a = -903.23 + 19 * -2` or `((32 + 47) * 2) / 5`. It has four stages:

- **Lexing.** A lexer turns the line into tokens: numbers such as `42` or
  `4.2`, identifiers (a letter followed by letters and digits), and
  one-character operator tokens. Whitespace is skipped. The lexer keeps
  its tokens on a stack, so `next` pops the first pending token and
  `peek` looks at it. Both answer the EOF token (text `"\0"`) once the
  stack is empty.
- **Parsing.** A precedence-climbing parser builds a tree of atoms and
  operations. Each binary operator has a left and a right binding power:
  - `=` is 0.2/0.1, so it groups to the right.
  - `+ -` are 1.0/1.1, and `* /` are 2.0/2.1, so they group to the left.
  - Unary minus parses its operand at 3.0, which makes it bind tightest.
  - Parentheses restart the parse at 0.
- **Evaluation.** An atom is a number or a variable. An operation is unary
  minus, one of `+ - * /`, a comparison, or the assignment `=`.
- **The interpreter.** It keeps a map from names to values. It handles a
  line `name = expr` by storing the value, and any other line by printing
  its value. An integral value prints as a Java `int`; any other value
  prints as a float. Every failure becomes its message.

The model has twelve Dafny modules: seven for the source files, three
support modules, one for the laws of the parser and one for whole-line
scenarios:

| module | source | form |
|---|---|---|
| `Tokens` (token.dfy) | Token.java | values |
| `Lexing` (lexer.dfy) | Lexer.java | specification functions, plus a `Lexer` class whose methods are proved against them |
| `Atoms` (atom.dfy) | Atom.java | functions |
| `Operations` (operation.dfy) | Operation.java | functions |
| `Expressions` (expression.dfy) | Expression.java, Operation.java | `Expr` datatype and its evaluator |
| `Parsing` (parser.dfy) | Parser.java | specification functions over a token sequence, plus methods that consume a `Lexer` and are proved to agree with them |
| `Interpreting` (interpreter.dfy) | Interpreter.java | the `Step` function, plus an `Interpreter` class whose `variables` field is updated in place |
| `Errors`, `Chars`, `Decimal` | exceptions, character classes, decimal numerals | support |
| `ParsingLaws` (parser_laws.dfy) | Parser.java | grouping, precedence and error laws of the parser |
| `LineScenarios` (line_scenarios.dfy) | InterpreterTest.java | whole lines, from text to answer |

Each Java exception is an `Error` value, and each operation that may throw
returns an `Outcome` (`Ok(value)` or `Fail(error)`). Numbers are exact
`real`s.

In the parser, the functions `Expression`, `Primary` and `Loop` state what
parsing a token sequence yields and which tokens remain. The methods
`ParseExpression` and `ParsePrimary` do the same work on a mutable
`Lexer`. Their postcondition `Agrees` says that on success they return the
function's tree and leave exactly the function's remaining tokens pending.

The source and the behaviour that its tests expect disagree on comparisons.
The tests expect `2 > 1` and `3==6/2` to print `1`. The code cannot get
there:
- the lexer makes only one-character operator tokens;
- the precedence table knows only `= + - * /`.

So `2 > 1` fails with `Unknown operator: '>'`, and `3==6/2` fails with
`Invalid start of expression: =`. The model follows the code, as
`LineScenarios.GreaterThanIsUnknown` and
`LineScenarios.DoubleEqualsIsInvalidStart` show. The comparison branches of
the evaluator are still modelled, and proved about, on trees built
directly.

## Model

Paths are relative to the repository root.

| member | source | states |
|---|---|---|
| Decimal.NatText | src/main/java/expressionparser/model/Interpreter.java:58-60 | the decimal text of a natural number is a non-empty digit string with no leading zero except for 0 itself |
| Decimal.IntText | src/main/java/expressionparser/model/Interpreter.java:58-60 | the text of an `int` starts with `-` exactly when the number is negative |
| Decimal.NatTextRoundTrip | src/main/java/expressionparser/model/Interpreter.java:58-60 | reading back the printed digits of n gives n |
| Decimal.IntTextRoundTrip | src/main/java/expressionparser/model/Interpreter.java:58-60 | reading back the printed text of any integer, with its sign, gives that integer |
| Decimal.LeadingZeroIgnored | src/main/java/expressionparser/model/Atom.java:30-32 | a leading zero does not change the value of a digit string |
| Errors.MessageKind | src/main/java/expressionparser/model/Parser.java:19-83 | the 17th and 19th characters of an exception text (or, for the short `Unexpected ')'`, its length) tell which failure it reports |
| Errors.MessageIdentifiesError | src/main/java/expressionparser/model/Operation.java:32-67 | two failures with the same exception text are the same failure, with the same token, name, operator or operand count |
| Lexing.NumberEnd | src/main/java/expressionparser/model/Lexer.java:47-67 | a number lexeme is a non-empty run of digits with at most one decimal point, and it ends at the first character that cannot extend it |
| Lexing.NumberRun | src/main/java/expressionparser/model/Lexer.java:52-63 | the number loop takes only digits and at most one `.`, none once a `.` has been seen, and stops at a character that is neither a digit nor a second `.` |
| Lexing.NumberStart | src/main/java/expressionparser/model/Lexer.java:41-45 | a number starts at a position exactly when the number loop takes a well-formed number lexeme from there: a digit, or a `.` followed by a digit |
| Lexing.IdentifierEnd | src/main/java/expressionparser/model/Lexer.java:69-80 | an identifier lexeme is the longest run of letters and digits from its start |
| Lexing.IdentifierRun | src/main/java/expressionparser/model/Lexer.java:73-76 | the identifier loop takes only letters and digits |
| Lexing.Scan | src/main/java/expressionparser/model/Lexer.java:17-39 | every token takes at least one character of the line, and a character that is not whitespace always starts a token |
| Lexing.ScanTokens | src/main/java/expressionparser/model/Lexer.java:17-39 | every token of a line is a number atom, an identifier atom or a one-character operator that is not whitespace, a letter or a digit |
| Lexing.WithoutWhitespaceKeeps | src/main/java/expressionparser/model/Lexer.java:22-25 | removing whitespace keeps a whitespace-free prefix as it is |
| Lexing.ScanConcat | src/main/java/expressionparser/model/Lexer.java:17-39 | the token texts, concatenated, are exactly the input with its whitespace removed: no character is lost, added or reordered |
| Lexing.BlankScansToNothing | src/main/java/expressionparser/model/Lexer.java:19-25 | a line that is all whitespace gives no tokens |
| Lexing.ScanDigitRun | src/main/java/expressionparser/model/Lexer.java:27-30 | a maximal run of digits not followed by a dot becomes one atom token |
| Lexing.DigitRunEnd | src/main/java/expressionparser/model/Lexer.java:52-63 | the number loop stops at the end of a digit run not followed by a dot |
| Lexing.ScanNameRun | src/main/java/expressionparser/model/Lexer.java:32-35 | a letter followed by a maximal run of letters and digits becomes one atom token |
| Lexing.NameRunEnd | src/main/java/expressionparser/model/Lexer.java:73-76 | the identifier loop stops at the end of the letter-or-digit run |
| Lexing.ScanSymbol | src/main/java/expressionparser/model/Lexer.java:37 | any other non-space character becomes a one-character operator token |
| Lexing.ScanSpace | src/main/java/expressionparser/model/Lexer.java:22-25 | whitespace is skipped and adds no token |
| Lexing.DottedRunEnd | src/main/java/expressionparser/model/Lexer.java:52-63 | the number loop stops exactly at the end of a run of digits with at most one `.` that is followed by neither a digit nor a `.` |
| Lexing.ScanLexeme | src/main/java/expressionparser/model/Lexer.java:17-39 | maximal munch: the text of a lexer token, followed by the end of the line or by a character that cannot extend it, is scanned as exactly that token, and scanning goes on after it |
| Lexing.ScanRenderedHead | src/main/java/expressionparser/model/Lexer.java:17-39 | the first token of a written-out token list is scanned as itself, and scanning resumes where the rest of the list is written |
| Lexing.ScanRenderedFrom | src/main/java/expressionparser/model/Lexer.java:17-39 | scanning from where a written-out token list starts gives exactly that list |
| Lexing.ScanRendered | src/main/java/expressionparser/model/Lexer.java:17-39 | round trip: lexing a token list written out with its texts, spaced where two tokens would run together, gives the same list back |
| Lexing.Reversed | src/main/java/expressionparser/model/Lexer.java:14 | reversing keeps the length and mirrors the positions |
| Lexing.ReversedTwice | src/main/java/expressionparser/model/Lexer.java:14 | reversing twice gives back the sequence, so the reversed stack pops the tokens in input order |
| Lexing.Lexer.constructor | src/main/java/expressionparser/model/Lexer.java:11-15 | after construction, the pending tokens are exactly the scan of the input, in order |
| Lexing.Lexer.Tokenize | src/main/java/expressionparser/model/Lexer.java:17-39 | the loop appends exactly the scan of the input to the token list |
| Lexing.Lexer.ConsumeNumber | src/main/java/expressionparser/model/Lexer.java:47-67 | appends the number lexeme as one atom token and returns the position after it |
| Lexing.Lexer.ConsumeIdentifier | src/main/java/expressionparser/model/Lexer.java:69-80 | appends the identifier lexeme as one atom token and returns the position after it |
| Lexing.Lexer.ConsumeOperator | src/main/java/expressionparser/model/Lexer.java:82-85 | appends the character as one operator token and advances by one |
| Lexing.Lexer.Next | src/main/java/expressionparser/model/Lexer.java:87-89 | returns the first pending token, or EOF when none remain, and drops it |
| Lexing.Lexer.Peek | src/main/java/expressionparser/model/Lexer.java:91-93 | returns the first pending token, or EOF, and changes nothing |
| Lexing.Lookahead | src/main/java/expressionparser/model/Lexer.java:91-93 | the next token is the first one left, or the EOF token when none is left |
| Lexing.Advance | src/main/java/expressionparser/model/Lexer.java:87-89 | taking a token removes exactly the first one left; with none left nothing changes |
| Atoms.NumberValue | src/main/java/expressionparser/model/Atom.java:30-32 | a number atom's value is never negative |
| Atoms.ResolveVariable | src/main/java/expressionparser/model/Atom.java:38-43 | a bound name gives its value; an unbound one fails with `Undefined variable`, naming it |
| Atoms.Eval | src/main/java/expressionparser/model/Atom.java:17-24 | a number atom gives its value; a variable atom resolves its name; any other text fails with `Invalid atom value` |
| Atoms.PatternsDisjoint | src/main/java/expressionparser/model/Atom.java:8-9 | no atom is both a number and a variable |
| Atoms.NumberIgnoresVariables | src/main/java/expressionparser/model/Atom.java:17-24 | a number atom's value does not depend on the variables |
| Atoms.VariableLookup | src/main/java/expressionparser/model/Atom.java:38-43 | a variable reads its binding, or fails with the message `Undefined variable '<name>'` |
| Atoms.LeadingZeroIgnored | src/main/java/expressionparser/model/Atom.java:30-32 | a leading zero does not change a number atom's value |
| Atoms.LeadingZerosIgnored | src/main/java/expressionparser/model/Atom.java:30-32 | any number of leading zeros keeps a number text a number and leaves its value alone |
| Atoms.FortyTwo | src/main/java/expressionparser/model/Atom.java:30-32 | `42` is a number text whose value is 42 |
| Atoms.NumeralValue | src/main/java/expressionparser/model/Atom.java:17-32 | the decimal numeral of n evaluates to n |
| Atoms.ZerosThenFortyTwo | src/test/java/ut/expressionparser/model/InterpreterTest.java:24 | `00000042` evaluates to 42 |
| Operations.Truth | src/main/java/expressionparser/model/Operation.java:8-9 | a comparison yields 1 exactly when it holds and 0 exactly when it does not |
| Operations.EvaluateUnary | src/main/java/expressionparser/model/Operation.java:38-44 | only `-` is a unary operator, and it gives the additive inverse; any other fails with `Unknown unary operator` |
| Operations.SafeDivision | src/main/java/expressionparser/model/Operation.java:65-70 | fails exactly when the denominator is 0; otherwise the quotient times the denominator is the numerator |
| Operations.EvaluateBinary | src/main/java/expressionparser/model/Operation.java:46-63 | fails exactly on division by zero or an unknown operator (with `=` giving its own error); comparisons give 0 or 1; `-` gives the number that, added to the right operand, gives the left; `/` is the safe division; `+` and `*` are said only to succeed, and are pinned by the three lemmas below |
| Operations.SubtractionUndoesAddition | src/main/java/expressionparser/model/Operation.java:50-51 | `+` succeeds and `-` undoes it; with the contract of `-` this makes `+` the sum |
| Operations.DivisionUndoesMultiplication | src/main/java/expressionparser/model/Operation.java:52-53 | for a non-zero right operand, `*` succeeds and `/` undoes it; with the contract of `/` this makes `*` the product |
| Operations.MultiplicationByZero | src/main/java/expressionparser/model/Operation.java:52 | `*` by zero gives zero |
| Operations.DivisionIsSafe | src/main/java/expressionparser/model/Operation.java:53 | `/` is the division that refuses a zero denominator |
| Operations.ComparisonHolds | src/main/java/expressionparser/model/Operation.java:54-59 | a comparison yields 1 or 0, and 1 exactly when its relation holds |
| Operations.ComparisonDuality | src/main/java/expressionparser/model/Operation.java:54-59 | `!=`, `>=` and `<=` are the complements of `==`, `<` and `>`; `>` is `<` with its operands swapped; `==` is symmetric |
| Expressions.AssignmentOf | src/main/java/expressionparser/model/Operation.java:12-25 | an assignment is found exactly for `=` over an atom and one other operand, and it names that atom and that operand; an atom is never an assignment |
| Expressions.Eval | src/main/java/expressionparser/model/Operation.java:28-63 | every evaluation failure is one of the evaluator's own errors |
| Expressions.WrongArityFails | src/main/java/expressionparser/model/Operation.java:28-36 | an operation with neither one nor two operands fails with `Invalid number of operands`, whatever its operator |
| Expressions.OperandFailureWins | src/main/java/expressionparser/model/Operation.java:46-49 | the left operand's failure comes first, then the right operand's, and only then the operator's result |
| Expressions.UnaryOperandFirst | src/main/java/expressionparser/model/Operation.java:38-44 | the operand is evaluated before the operator is checked; `-` negates |
| Expressions.DivisionByZeroExactly | src/main/java/expressionparser/model/Operation.java:46-70 | dividing fails with `DivisionByZero` exactly when the divisor evaluates to 0; otherwise it gives the quotient |
| Expressions.BinarySymbolErrors | src/main/java/expressionparser/model/Operation.java:60-61 | `=` inside a tree fails with `Assignment cannot be evaluated directly`; an unknown symbol fails with `Unknown binary operator` |
| Expressions.ComparisonIsBoolean | src/main/java/expressionparser/model/Operation.java:55-59 | a comparison of two values yields 1 or 0, according to the comparison |
| Expressions.NegationChain | src/main/java/expressionparser/model/Operation.java:38-44 | k nested minuses give the value when k is even and its negation when k is odd, and pass the operand's failure through |
| Expressions.SevenNegationsPlusTen | src/test/java/ut/expressionparser/model/InterpreterTest.java:64 | seven negations of 42, plus 10, is -32 |
| Expressions.EvalReadsOnlyNames | src/main/java/expressionparser/model/Atom.java:38-43 | a tree's value depends only on the bindings of the names it mentions |
| Parsing.OperatorPrecedence | src/main/java/expressionparser/model/Parser.java:78-85 | exactly `= + - * /` have binding powers; any other symbol fails with `Unknown operator`; every power is below the unary operand's; the left power is below the right except for `=` |
| Parsing.ShouldStopParsing | src/main/java/expressionparser/model/Parser.java:53-69 | EOF stops the loop outside parentheses and fails inside; `)` stops it inside and fails outside; any other token continues it |
| Parsing.Expression | src/main/java/expressionparser/model/Parser.java:11-31 | a parse consumes at least one token and leaves a suffix; it stops only at EOF, at `)` or at a weaker operator; the tree has the parser's shape; every failure is a syntax error |
| Parsing.Primary | src/main/java/expressionparser/model/Parser.java:33-51 | an operand consumes at least one token and leaves a suffix; the tree is an atom, a negation or a parenthesised expression; every failure is a syntax error |
| Parsing.Loop | src/main/java/expressionparser/model/Parser.java:13-28 | the operator loop leaves a suffix and stops only where the expression may end; a well-shaped left tree stays well shaped; every failure is a syntax error |
| Parsing.ClosingParenthesis | src/main/java/expressionparser/model/Parser.java:71-76 | succeeds exactly when the next token is `)`, and drops it; otherwise fails naming the token found |
| Parsing.ParseLine | src/main/java/expressionparser/model/Expression.java:7-9 | a parsed line gives a well-shaped tree; every failure is a syntax error |
| Parsing.Parse | src/main/java/expressionparser/model/Parser.java:7-9 | agrees with the `Expression` function outside parentheses: same tree, same tokens left pending |
| Parsing.ParseExpression | src/main/java/expressionparser/model/Parser.java:11-31 | the loop agrees with the `Expression` function: same tree or same error, and exactly the function's tokens left pending |
| Parsing.ParsePrimary | src/main/java/expressionparser/model/Parser.java:33-51 | agrees with the `Primary` function: same tree or same error, and exactly the function's tokens left pending |
| Parsing.ExpectClosingParenthesis | src/main/java/expressionparser/model/Parser.java:71-76 | consumes the next token; succeeds exactly when it is `)`, and fails naming it otherwise |
| Parsing.FromString | src/main/java/expressionparser/model/Expression.java:7-9 | building a lexer over the line and parsing it gives `ParseLine` of that line |
| ParsingLaws.ThreeOperands | src/main/java/expressionparser/model/Parser.java:11-31 | `a o1 b o2 c` groups as `(a o1 b) o2 c` exactly when o2's left power is below o1's right power, and as `a o1 (b o2 c)` otherwise |
| ParsingLaws.GroupsLeft | src/main/java/expressionparser/model/Parser.java:11-31 | when o2's left power is below o1's right power, `a o1 b o2 c` is `(a o1 b) o2 c` |
| ParsingLaws.GroupsRight | src/main/java/expressionparser/model/Parser.java:11-31 | otherwise `a o1 b o2 c` is `a o1 (b o2 c)` |
| ParsingLaws.LoopTakes | src/main/java/expressionparser/model/Parser.java:21-27 | an operator at or above the minimum power takes the operand parsed at its right power, and the loop goes on from the new node |
| ParsingLaws.LoopYields | src/main/java/expressionparser/model/Parser.java:21-23 | an operator below the minimum power ends the loop before it, leaving it unconsumed |
| ParsingLaws.TwoOperands | src/main/java/expressionparser/model/Parser.java:11-31 | `a op b` parses to the operation op over the two atoms |
| ParsingLaws.SameTierGroupsLeft | src/main/java/expressionparser/model/Parser.java:81-82 | operators of the same tier group to the left |
| ParsingLaws.AssignmentGroupsRight | src/main/java/expressionparser/model/Parser.java:80 | `a = b = c` groups as `a = (b = c)` |
| ParsingLaws.ProductBindsTighter | src/main/java/expressionparser/model/Parser.java:81-82 | `*` and `/` bind tighter than `+` and `-`, on either side |
| ParsingLaws.AssignmentBindsLeast | src/main/java/expressionparser/model/Parser.java:80-82 | `=` binds loosest, on either side of another operator |
| ParsingLaws.UnaryMinusBindsTightest | src/main/java/expressionparser/model/Parser.java:38-41 | `-a op b` groups as `(-a) op b` for every binary operator |
| ParsingLaws.NegationRun | src/main/java/expressionparser/model/Parser.java:38-41 | k minus signs before an atom parse as k nested negations of it |
| ParsingLaws.NegationOfPrimary | src/main/java/expressionparser/model/Parser.java:38-41 | a minus before a primary that ends its operand negates that primary and stops where it stopped |
| ParsingLaws.LoopAboveEveryPower | src/main/java/expressionparser/model/Parser.java:22-24 | at the unary operand's power, the operator loop adds nothing to the tree |
| ParsingLaws.UnaryOperandIsPrimary | src/main/java/expressionparser/model/Parser.java:39 | the operand of unary minus is a single primary |
| ParsingLaws.ParenthesisedPair | src/main/java/expressionparser/model/Parser.java:43-47 | `(b op c)` parses to `b op c` and consumes the closing parenthesis |
| ParsingLaws.ParenthesesGroupRight | src/main/java/expressionparser/model/Parser.java:43-47 | `a o1 (b o2 c)` groups the parenthesised pair, whatever the powers |
| ParsingLaws.ClosingParenthesisFollows | src/main/java/expressionparser/model/Parser.java:44-45 | a successful parse inside parentheses always stops at `)`, so the `Expected ')', but found` failure cannot happen |
| ParsingLaws.TopLevelConsumesAll | src/main/java/expressionparser/model/Parser.java:53-59 | a top-level parse of a line's tokens consumes all of them |
| ParsingLaws.InvalidStartToken | src/main/java/expressionparser/model/Parser.java:49 | an operator other than `-` or `(` cannot start an expression |
| ParsingLaws.OperandAfterOperand | src/main/java/expressionparser/model/Parser.java:18-20 | two operands in a row fail with `Expected operator, but found`, naming the second |
| ParsingLaws.UnknownSymbolAfterOperand | src/main/java/expressionparser/model/Parser.java:21-23 | any symbol after an operand that is neither a binary operator nor `)` fails with `Unknown operator` |
| ParsingLaws.StrayClosingParenthesis | src/main/java/expressionparser/model/Parser.java:61-64 | `)` outside parentheses fails with `Unexpected ')'` |
| ParsingLaws.EndInsideParentheses | src/main/java/expressionparser/model/Parser.java:54-57 | the end of input inside parentheses fails with `Expected ')', but reached end of input` |
| ParsingLaws.UnclosedAroundPair | src/main/java/expressionparser/model/Parser.java:54-57 | `((b op c)` fails as unterminated |
| ParsingLaws.ClosedTwiceAfterPair | src/main/java/expressionparser/model/Parser.java:61-64 | `(b op c))` fails at the extra `)` |
| ParsingLaws.BlankLine | src/main/java/expressionparser/model/Parser.java:49 | a blank line fails with `Invalid start of expression`, naming the EOF text |
| ParsingLaws.ShapedTreeErrors | src/main/java/expressionparser/model/Parser.java:33-51 | evaluating a parsed tree can fail only by an invalid atom, an undefined variable, division by zero or a nested assignment |
| Interpreting.IntCast | src/main/java/expressionparser/model/Interpreter.java:58-60 | the `(int)` cast stays within `int`, saturates at the bounds and truncates toward zero |
| Interpreting.FormatResult | src/main/java/expressionparser/model/Interpreter.java:58-60 | an integral value prints as an integer text that reads back as the value, or as the nearest `int` bound when it lies outside them; any other value prints in float form |
| Interpreting.Evaluated | src/main/java/expressionparser/model/Interpreter.java:33-35 | succeeds exactly when the tree evaluates, printing its value; otherwise it carries the evaluation error |
| Interpreting.Assigned | src/main/java/expressionparser/model/Interpreter.java:27-31 | on success, binds the name to the value and answers `name = value`; on failure, leaves the variables as they were |
| Interpreting.Step | src/main/java/expressionparser/model/Interpreter.java:14-25 | a line that does not parse answers its parse error and changes nothing; an assignment is answered exactly as `Assigned` does, so it stores the value of its right-hand side and succeeds whenever that evaluates; any other line changes nothing and answers the value of its tree, as `Evaluated` does; every failure is a syntax or reachable evaluation error |
| Interpreting.ReadName | src/main/java/expressionparser/model/Interpreter.java:14-25 | a line that is a bare name prints its binding, or fails naming it, and changes nothing |
| Interpreting.AssignmentCommits | src/main/java/expressionparser/model/Interpreter.java:27-31 | after an assignment succeeds, reading the name prints exactly the value that the assignment reported |
| Interpreting.AssignNumeral | src/main/java/expressionparser/model/Interpreter.java:27-31 | `name = n` binds name to n and answers `name = n`, whatever the earlier binding was |
| Interpreting.FormatNatural | src/main/java/expressionparser/model/Interpreter.java:58-60 | a natural number within `int` range prints as its decimal numeral |
| Interpreting.NestedAssignmentFails | src/main/java/expressionparser/model/Operation.java:60 | `a = b = c` fails and changes no variable |
| Interpreting.Interpreter.constructor | src/main/java/expressionparser/model/Interpreter.java:10-12 | a new interpreter has no variables |
| Interpreting.Interpreter.Execute | src/main/java/expressionparser/model/Interpreter.java:14-25 | the answer and the new variables are those of `Step` on the old variables |
| Interpreting.Interpreter.HandleAssignment | src/main/java/expressionparser/model/Interpreter.java:27-31 | the answer and the new variables are those of `Assigned` |
| Interpreting.Interpreter.EvalExpression | src/main/java/expressionparser/model/Interpreter.java:33-35 | the answer is `Evaluated` on the current variables |
| Interpreting.Result.Value | src/main/java/expressionparser/model/Interpreter.java:62-64 | the text of a result is its answer on success and its exception text on failure |
| LineScenarios.ScanGreaterThan | src/test/java/ut/expressionparser/model/InterpreterTest.java:215 | `2 > 1` lexes to two atoms around a one-character `>` |
| LineScenarios.GreaterThanIsUnknown | src/test/java/ut/expressionparser/model/InterpreterTest.java:215 | `2 > 1` fails with `Unknown operator: '>'` |
| LineScenarios.ScanDoubleEquals | src/test/java/ut/expressionparser/model/InterpreterTest.java:243 | `3==6/2` lexes `==` as two `=` tokens |
| LineScenarios.DoubleEqualsIsInvalidStart | src/test/java/ut/expressionparser/model/InterpreterTest.java:243 | `3==6/2` fails with `Invalid start of expression: =` |
| LineScenarios.ScanNameAfterNumber | src/test/java/ut/expressionparser/model/InterpreterTest.java:205 | `10x - 98` lexes `10` and `x` as two atoms |
| LineScenarios.NameAfterNumberExpectsOperator | src/test/java/ut/expressionparser/model/InterpreterTest.java:205 | `10x - 98` fails with `Expected operator, but found: x` |
| LineScenarios.ScanLeadingAmpersand | src/test/java/ut/expressionparser/model/InterpreterTest.java:200 | `&10 - 98` lexes `&` as an operator token |
| LineScenarios.LeadingSymbolIsInvalidStart | src/test/java/ut/expressionparser/model/InterpreterTest.java:200 | `&10 - 98` fails with `Invalid start of expression: &` |
| LineScenarios.ScanInfixAmpersand | src/test/java/ut/expressionparser/model/InterpreterTest.java:210 | `10 & 98` lexes to two atoms around `&` |
| LineScenarios.InfixSymbolIsUnknown | src/test/java/ut/expressionparser/model/InterpreterTest.java:210 | `10 & 98` fails with `Unknown operator: '&'` |
| LineScenarios.ScanSpacedOperator | src/main/java/expressionparser/model/Lexer.java:17-39 | a symbol with a space on either side is one operator token, and scanning goes on after the second space |
| LineScenarios.ScanParenthesisedSum | src/test/java/ut/expressionparser/model/InterpreterTest.java:170 | `(75 + 27)` lexes to `(`, 75, `+`, 27 and `)` |
| LineScenarios.ScanMissingClosing | src/test/java/ut/expressionparser/model/InterpreterTest.java:190 | `((75 + 27)` lexes to two `(` and one `)` |
| LineScenarios.MissingClosingParenthesis | src/test/java/ut/expressionparser/model/InterpreterTest.java:190 | `((75 + 27)` fails as unterminated |
| LineScenarios.ScanExtraClosing | src/test/java/ut/expressionparser/model/InterpreterTest.java:195 | `(75 + 27))` lexes to one `(` and two `)` |
| LineScenarios.ExtraClosingParenthesis | src/test/java/ut/expressionparser/model/InterpreterTest.java:195 | `(75 + 27))` fails with `Unexpected ')'` |
| LineScenarios.SyntaxErrorMessages | src/main/java/expressionparser/model/Parser.java:19-83 | the parser errors carry the messages the code produces for these lines |
| LineScenarios.SyntaxErrorLines | src/test/java/ut/expressionparser/model/InterpreterTest.java:188-211 | the five lines that do not parse answer their parse errors, whose texts are those the tests expect, and change no variable |
| LineScenarios.ScanMinusRun | src/main/java/expressionparser/model/Lexer.java:37 | a run of k minus signs scans to k minus tokens |
| LineScenarios.ScanFortyTwoPlusTen | src/test/java/ut/expressionparser/model/InterpreterTest.java:64 | `42 + 10` at the end of a line scans to 42, `+` and 10 |
| LineScenarios.ScanNegationChain | src/test/java/ut/expressionparser/model/InterpreterTest.java:64 | `- ------42 + 10` lexes to seven minuses, 42, `+` and 10 |
| LineScenarios.ParseNegationChain | src/test/java/ut/expressionparser/model/InterpreterTest.java:64 | `- ------42 + 10` parses as seven negations of 42, plus 10 |
| LineScenarios.NegationChainLine | src/test/java/ut/expressionparser/model/InterpreterTest.java:64 | `- ------42 + 10` prints `-32` and changes nothing |
| LineScenarios.FormatMinusThirtyTwo | src/main/java/expressionparser/model/Interpreter.java:58-60 | -32 prints as `-32` |
| LineScenarios.ParseParenthesisedSum | src/test/java/ut/expressionparser/model/InterpreterTest.java:170 | `(75 + 27)` parses to the sum of the two atoms |
| LineScenarios.EvaluatedLine | src/main/java/expressionparser/model/Interpreter.java:14-25 | a line that parses to a tree other than an assignment answers that tree's value and changes nothing |
| LineScenarios.NumeralOperands | src/main/java/expressionparser/model/Operation.java:46-63 | an operator applied to two numerals evaluates to the operator applied to their numbers |
| LineScenarios.EvalParenthesisedSum | src/test/java/ut/expressionparser/model/InterpreterTest.java:170 | 75 + 27 evaluates and prints as `102` |
| LineScenarios.ParenthesisedSumLine | src/test/java/ut/expressionparser/model/InterpreterTest.java:170 | `(75 + 27)` prints `102` and changes nothing |
| LineScenarios.ScanDivisionByZero | src/test/java/ut/expressionparser/model/InterpreterTest.java:104 | `42 / 0` lexes to 42, `/` and 0 |
| LineScenarios.ParseDivisionByZero | src/test/java/ut/expressionparser/model/InterpreterTest.java:104 | `42 / 0` parses to a division of the two atoms |
| LineScenarios.EvalDivisionByZero | src/test/java/ut/expressionparser/model/InterpreterTest.java:104 | 42 / 0 fails with `DivisionByZero` |
| LineScenarios.DivisionByZeroLine | src/test/java/ut/expressionparser/model/InterpreterTest.java:104 | `42 / 0` fails with division by zero and changes nothing |
| LineScenarios.ScanUndefinedSum | src/test/java/ut/expressionparser/model/InterpreterTest.java:165 | `a + 2` lexes to the name a, `+` and 2 |
| LineScenarios.ParseUndefinedSum | src/test/java/ut/expressionparser/model/InterpreterTest.java:165 | `a + 2` parses to a sum of a variable and a number |
| LineScenarios.UndefinedVariableLine | src/test/java/ut/expressionparser/model/InterpreterTest.java:165 | `a + 2` with no variables fails with `Undefined variable 'a'` |
| LineScenarios.AssignDigits | src/test/java/ut/expressionparser/model/InterpreterTest.java:151-161 | `y = n` binds y to n and answers `y = n` |
| LineScenarios.ScanAssignSixtySeven | src/test/java/ut/expressionparser/model/InterpreterTest.java:154 | `y = 67` lexes to the name y, `=` and 67 |
| LineScenarios.AssignSixtySevenParts | src/test/java/ut/expressionparser/model/InterpreterTest.java:154 | `y = 67` binds y to 67 |
| LineScenarios.AssignSixtySeven | src/test/java/ut/expressionparser/model/InterpreterTest.java:154-156 | `y = 67` answers `y = 67` and binds y to 67 |
| LineScenarios.ScanAssignNinetyEightThousand | src/test/java/ut/expressionparser/model/InterpreterTest.java:158 | `y = 98725` lexes to the name y, `=` and 98725 |
| LineScenarios.AssignNinetyEightThousandParts | src/test/java/ut/expressionparser/model/InterpreterTest.java:158 | `y = 98725` binds y to 98725 |
| LineScenarios.AssignNinetyEightThousand | src/test/java/ut/expressionparser/model/InterpreterTest.java:158-160 | `y = 98725` answers `y = 98725` and rebinds y |
| LineScenarios.ReassignmentSession | src/test/java/ut/expressionparser/model/InterpreterTest.java:151-161 | for any name and two numerals, two assignments on one interpreter object each answer with their assignment, and reading the name afterwards prints the second numeral |
| LineScenarios.ReassignmentVariable | src/test/java/ut/expressionparser/model/InterpreterTest.java:151-161 | on one interpreter object, `y = 67` answers `y = 67` and then `y = 98725` answers `y = 98725` |

## Left out

- Float arithmetic is not modelled. Values are exact `real`s, so the model has no 32-bit rounding, no NaN and no infinities. Results that depend on rounding, such as `42.981 - 12.10` printing `30.880999`, are outside the model.
- Interpreting.FormatResult: a value that is not integral prints as `shortest(v)`. `shortest` is a parameter that stands for Java's shortest float-to-text conversion, which the model does not define.
- Interpreting.IntCast: does not model the cast of NaN to 0, because the model has no NaN.
- Atoms.NumberValue: reads the digits exactly instead of rounding to the nearest 32-bit float, because values are exact reals.
- Character classes are ASCII. `Character.isWhitespace`, `isDigit`, `isLetter` and `isLetterOrDigit` also accept other Unicode characters; the model does not.
- The regular expressions in Atom.java are written as the predicates `IsNumberText` and `IsVariableText`. The regex engine itself is not modelled.
- The comparison operators `== != < > <= >=` are modelled in the evaluator but cannot come from a line, because the lexer and the precedence table do not produce them. The tests expect those lines to print 1 or 0; the model follows the code.
- The catch-all `Unknown exception` branch of `execute` (Interpreter.java:22-24) is not modelled, because `Step`'s contract shows that every failure is a parser or evaluation error. Stack overflow on very deep nesting is not modelled either, because recursion is unbounded in the model.
- The `Expected ')', but found` failure of `expectClosingParenthesis` is modelled, but `ParsingLaws.ClosingParenthesisFollows` shows it cannot happen. `Parsing.ParsePrimary` treats that branch as dead.
- `token == Token.EOF` is a reference comparison in Java. The model compares values instead. This gives the same answers, because the lexer never makes a token of the EOF kind from a line.
- Float binding powers 0.2, 0.1, 1.0, 1.1, 2.0, 2.1 and 3.0 are scaled by ten to the naturals 2, 1, 10, 11, 20, 21 and 30. This keeps every comparison between them.
- `Assignment` and `ParserException` are not part of this model as classes. `Assignment` is a datatype, and the exception is the `Error` datatype with its `Message`.
- The command-line launcher (Launcher.java), its input loop and its console output are not part of this model.
- An assignment to a numeric atom, such as `5 = 3`, stores under the numeral's text; reading `5` still gives 5. The model keeps this as the code does, without a separate lemma.
- The test lines that need rounding or comparisons, such as `abc = 181.625`, `972.8421` and `60.2`, are not restated as lemmas.
