/** What the binding-power table makes of short token lists: grouping of
    two binary operators, unary minus, parentheses, where a parse stops,
    and the syntax errors of malformed lines. */
module ParsingLaws {
  import opened Tokens
  import opened Errors
  import opened Expressions
  import opened Lexing
  import opened Parsing

  function AtomToken(text: string): Token {
    Token(TokenType.Atom, text)
  }

  function OperatorToken(op: string): Token {
    Token(Operator, op)
  }

  /** `a o1 b o2 c` groups to the left exactly when `o2` binds less than the
      right side of `o1`, and to the right otherwise. */
  lemma ThreeOperands(a: string, o1: string, b: string, o2: string, c: string)
    requires IsBinarySymbol(o1) && IsBinarySymbol(o2)
    ensures var ts := [AtomToken(a), OperatorToken(o1), AtomToken(b), OperatorToken(o2), AtomToken(c)];
            Expression(ts, 0, false) == Ok(Parsed(
              if LeftPower(o2) < RightPower(o1)
              then Operation(o2, [Operation(o1, [Expr.Atom(a), Expr.Atom(b)]), Expr.Atom(c)])
              else Operation(o1, [Expr.Atom(a), Operation(o2, [Expr.Atom(b), Expr.Atom(c)])]),
              []))
  {
    if LeftPower(o2) < RightPower(o1) {
      GroupsLeft(a, o1, b, o2, c);
    } else {
      GroupsRight(a, o1, b, o2, c);
    }
  }

  /** `a o1 b o2 c` when `o2` binds less than the right side of `o1`: `(a o1 b) o2 c`. */
  lemma GroupsLeft(a: string, o1: string, b: string, o2: string, c: string)
    requires IsBinarySymbol(o1) && IsBinarySymbol(o2) && LeftPower(o2) < RightPower(o1)
    ensures Expression([AtomToken(a), OperatorToken(o1), AtomToken(b), OperatorToken(o2), AtomToken(c)], 0, false)
         == Ok(Parsed(Operation(o2, [Operation(o1, [Expr.Atom(a), Expr.Atom(b)]), Expr.Atom(c)]), []))
  {
    var ea, eb, ec := Expr.Atom(a), Expr.Atom(b), Expr.Atom(c);
    var left := Operation(o1, [ea, eb]);
    var tc := [AtomToken(c)];
    var tb := [AtomToken(b)] + ([OperatorToken(o2)] + tc);
    var ta := [AtomToken(a)] + ([OperatorToken(o1)] + tb);
    SingleAtom(c, RightPower(o2));
    AtomThenLoop(b, [OperatorToken(o2)] + tc, RightPower(o1), false);
    LoopYields(eb, o2, tc, RightPower(o1), false);
    LoopTakes(ea, o1, tb, eb, [OperatorToken(o2)] + tc, 0, false);
    LoopTakes(left, o2, tc, ec, [], 0, false);
    LoopAtEnd(Operation(o2, [left, ec]), 0);
    AtomThenLoop(a, [OperatorToken(o1)] + tb, 0, false);
    Nested(AtomToken(a), OperatorToken(o1), AtomToken(b), OperatorToken(o2), AtomToken(c));
  }

  /** `a o1 b o2 c` otherwise: `a o1 (b o2 c)`. */
  lemma GroupsRight(a: string, o1: string, b: string, o2: string, c: string)
    requires IsBinarySymbol(o1) && IsBinarySymbol(o2) && LeftPower(o2) >= RightPower(o1)
    ensures Expression([AtomToken(a), OperatorToken(o1), AtomToken(b), OperatorToken(o2), AtomToken(c)], 0, false)
         == Ok(Parsed(Operation(o1, [Expr.Atom(a), Operation(o2, [Expr.Atom(b), Expr.Atom(c)])]), []))
  {
    var ea, eb, ec := Expr.Atom(a), Expr.Atom(b), Expr.Atom(c);
    var inner := Operation(o2, [eb, ec]);
    var tc := [AtomToken(c)];
    var tb := [AtomToken(b)] + ([OperatorToken(o2)] + tc);
    var ta := [AtomToken(a)] + ([OperatorToken(o1)] + tb);
    SingleAtom(c, RightPower(o2));
    AtomThenLoop(b, [OperatorToken(o2)] + tc, RightPower(o1), false);
    LoopTakes(eb, o2, tc, ec, [], RightPower(o1), false);
    LoopAtEnd(inner, RightPower(o1));
    LoopTakes(ea, o1, tb, inner, [], 0, false);
    LoopAtEnd(Operation(o1, [ea, inner]), 0);
    AtomThenLoop(a, [OperatorToken(o1)] + tb, 0, false);
    Nested(AtomToken(a), OperatorToken(o1), AtomToken(b), OperatorToken(o2), AtomToken(c));
  }

  // Single steps of the parse, over any remaining tokens.

  /** Five tokens, as the steps below take them apart. */
  lemma Nested(t1: Token, t2: Token, t3: Token, t4: Token, t5: Token)
    ensures [t1, t2, t3, t4, t5] == [t1] + ([t2] + ([t3] + ([t4] + [t5])))
  {
  }

  /** An atom is a primary; the operator loop goes on after it. */
  lemma AtomThenLoop(a: string, rest: seq<Token>, minPrecedence: nat, inParentheses: bool)
    ensures Expression([AtomToken(a)] + rest, minPrecedence, inParentheses)
         == Loop(Expr.Atom(a), rest, minPrecedence, inParentheses)
  {
    assert ([AtomToken(a)] + rest)[1..] == rest;
  }

  /** Outside parentheses the loop stops at the end of the line. */
  lemma LoopAtEnd(left: Expr, minPrecedence: nat)
    ensures Loop(left, [], minPrecedence, false) == Ok(Parsed(left, []))
  {
  }

  /** A lone atom is parsed whole, at any minimum power. */
  lemma SingleAtom(a: string, minPrecedence: nat)
    ensures Expression([AtomToken(a)], minPrecedence, false) == Ok(Parsed(Expr.Atom(a), []))
  {
    AtomThenLoop(a, [], minPrecedence, false);
    assert [AtomToken(a)] + [] == [AtomToken(a)];
  }

  /** An operator that binds less than the minimum ends the loop before it. */
  lemma LoopYields(left: Expr, op: string, rest: seq<Token>, minPrecedence: nat, inParentheses: bool)
    requires IsBinarySymbol(op) && LeftPower(op) < minPrecedence
    ensures Loop(left, [OperatorToken(op)] + rest, minPrecedence, inParentheses)
         == Ok(Parsed(left, [OperatorToken(op)] + rest))
  {
  }

  /** An operator that binds at least the minimum takes the operand parsed at
      its right power, and the loop goes on from the new node. */
  lemma LoopTakes(left: Expr, op: string, rest: seq<Token>, operand: Expr, after: seq<Token>, minPrecedence: nat, inParentheses: bool)
    requires IsBinarySymbol(op) && LeftPower(op) >= minPrecedence
    requires Expression(rest, RightPower(op), inParentheses) == Ok(Parsed(operand, after))
    ensures Loop(left, [OperatorToken(op)] + rest, minPrecedence, inParentheses)
         == Loop(Operation(op, [left, operand]), after, minPrecedence, inParentheses)
  {
    var ts := [OperatorToken(op)] + rest;
    assert ts[1..] == rest;
    assert Lookahead(ts) == OperatorToken(op);
    assert ShouldStopParsing(OperatorToken(op), inParentheses) == Ok(false);
    assert OperatorPrecedence(op).value.left >= minPrecedence;
  }

  /** `a op b` is one node over the two atoms, and nothing is left. */
  lemma TwoOperands(a: string, op: string, b: string)
    requires IsBinarySymbol(op)
    ensures Expression([AtomToken(a), OperatorToken(op), AtomToken(b)], 0, false)
         == Ok(Parsed(Operation(op, [Expr.Atom(a), Expr.Atom(b)]), []))
  {
    var ts := [AtomToken(a), OperatorToken(op), AtomToken(b)];
    var whole := Operation(op, [Expr.Atom(a), Expr.Atom(b)]);
    assert ts[1..][1..] == ts[2..] && ts[2..][1..] == [];
    assert Expression(ts[2..], RightPower(op), false) == Ok(Parsed(Expr.Atom(b), []));
    assert Loop(whole, [], 0, false) == Ok(Parsed(whole, []));
    assert Loop(Expr.Atom(a), ts[1..], 0, false) == Ok(Parsed(whole, []));
  }

  predicate Additive(op: string) {
    op == "+" || op == "-"
  }

  predicate Multiplicative(op: string) {
    op == "*" || op == "/"
  }

  /** Operators of one tier associate to the left: `a - b - c` is `(a - b) - c`. */
  lemma SameTierGroupsLeft(a: string, o1: string, b: string, o2: string, c: string)
    requires (Additive(o1) && Additive(o2)) || (Multiplicative(o1) && Multiplicative(o2))
    ensures Expression([AtomToken(a), OperatorToken(o1), AtomToken(b), OperatorToken(o2), AtomToken(c)], 0, false)
         == Ok(Parsed(Operation(o2, [Operation(o1, [Expr.Atom(a), Expr.Atom(b)]), Expr.Atom(c)]), []))
  {
    ThreeOperands(a, o1, b, o2, c);
  }

  /** Assignment associates to the right: `a = b = c` is `a = (b = c)`. */
  lemma AssignmentGroupsRight(a: string, b: string, c: string)
    ensures Expression([AtomToken(a), OperatorToken("="), AtomToken(b), OperatorToken("="), AtomToken(c)], 0, false)
         == Ok(Parsed(Operation("=", [Expr.Atom(a), Operation("=", [Expr.Atom(b), Expr.Atom(c)])]), []))
  {
    ThreeOperands(a, "=", b, "=", c);
  }

  /** A product binds tighter than a sum on either side. */
  lemma ProductBindsTighter(a: string, add: string, b: string, mul: string, c: string)
    requires Additive(add) && Multiplicative(mul)
    ensures Expression([AtomToken(a), OperatorToken(add), AtomToken(b), OperatorToken(mul), AtomToken(c)], 0, false)
         == Ok(Parsed(Operation(add, [Expr.Atom(a), Operation(mul, [Expr.Atom(b), Expr.Atom(c)])]), []))
    ensures Expression([AtomToken(a), OperatorToken(mul), AtomToken(b), OperatorToken(add), AtomToken(c)], 0, false)
         == Ok(Parsed(Operation(add, [Operation(mul, [Expr.Atom(a), Expr.Atom(b)]), Expr.Atom(c)]), []))
  {
    ThreeOperands(a, add, b, mul, c);
    ThreeOperands(a, mul, b, add, c);
  }

  /** Assignment binds least: `x = b o c` assigns the whole of `b o c`, and
      `a o b = c` makes `a o b` the target. */
  lemma AssignmentBindsLeast(a: string, op: string, b: string, c: string)
    requires IsBinarySymbol(op) && op != "="
    ensures Expression([AtomToken(a), OperatorToken("="), AtomToken(b), OperatorToken(op), AtomToken(c)], 0, false)
         == Ok(Parsed(Operation("=", [Expr.Atom(a), Operation(op, [Expr.Atom(b), Expr.Atom(c)])]), []))
    ensures Expression([AtomToken(a), OperatorToken(op), AtomToken(b), OperatorToken("="), AtomToken(c)], 0, false)
         == Ok(Parsed(Operation("=", [Operation(op, [Expr.Atom(a), Expr.Atom(b)]), Expr.Atom(c)]), []))
  {
    ThreeOperands(a, "=", b, op, c);
    ThreeOperands(a, op, b, "=", c);
  }

  /** Unary minus takes only the primary after it: `-a o b` is `(-a) o b`. */
  lemma UnaryMinusBindsTightest(a: string, op: string, b: string)
    requires IsBinarySymbol(op)
    ensures Expression([Minus, AtomToken(a), OperatorToken(op), AtomToken(b)], 0, false)
         == Ok(Parsed(Operation(op, [Operation("-", [Expr.Atom(a)]), Expr.Atom(b)]), []))
  {
    var ts := [Minus, AtomToken(a), OperatorToken(op), AtomToken(b)];
    assert ts[1..][1..] == ts[2..] && ts[2..][1..] == ts[3..] && ts[3..][1..] == [];
    assert Primary(ts[1..], false) == Ok(Parsed(Expr.Atom(a), ts[2..]));
    assert Expression(ts[1..], UnaryPower, false) == Ok(Parsed(Expr.Atom(a), ts[2..]));
    assert Primary(ts, false) == Ok(Parsed(Operation("-", [Expr.Atom(a)]), ts[2..]));
    assert Primary(ts[3..], false) == Ok(Parsed(Expr.Atom(b), []));
    assert Expression(ts[3..], RightPower(op), false) == Ok(Parsed(Expr.Atom(b), []));
    var whole := Operation(op, [Operation("-", [Expr.Atom(a)]), Expr.Atom(b)]);
    assert Loop(whole, [], 0, false) == Ok(Parsed(whole, []));
    assert Loop(Operation("-", [Expr.Atom(a)]), ts[2..], 0, false) == Ok(Parsed(whole, []));
  }

  /** `k` unary minus tokens. */
  function Minuses(k: nat): (ts: seq<Token>)
    ensures |ts| == k && forall i | 0 <= i < k :: ts[i] == Minus
  {
    if k == 0 then [] else [Minus] + Minuses(k - 1)
  }

  /** Where a run of minuses ends without consuming anything more: before
      a binary operator, or where the enclosing expression ends. */
  predicate EndsOperand(rest: seq<Token>, inParentheses: bool) {
    var t := Lookahead(rest);
    || (t.kind == Operator && IsBinarySymbol(t.text))
    || (t == EOF && !inParentheses)
    || (t == CloseParenthesis && inParentheses)
  }

  /** A run of `k` minuses before an atom is `k` nested negations of it. */
  lemma {:induction false} NegationRun(k: nat, a: string, rest: seq<Token>, inParentheses: bool)
    requires EndsOperand(rest, inParentheses)
    ensures Primary(Minuses(k) + [AtomToken(a)] + rest, inParentheses) == Ok(Parsed(Negations(k, Expr.Atom(a)), rest))
  {
    var ts := Minuses(k) + [AtomToken(a)] + rest;
    if k == 0 {
      assert ts == [AtomToken(a)] + rest;
    } else {
      NegationRun(k - 1, a, rest, inParentheses);
      assert ts == [Minus] + (Minuses(k - 1) + [AtomToken(a)] + rest);
      NegationOfPrimary(Minuses(k - 1) + [AtomToken(a)] + rest, Negations(k - 1, Expr.Atom(a)), rest, inParentheses);
    }
  }

  /** A minus before a primary that ends its operand negates that primary. */
  lemma NegationOfPrimary(ts: seq<Token>, operand: Expr, rest: seq<Token>, inParentheses: bool)
    requires Primary(ts, inParentheses) == Ok(Parsed(operand, rest))
    requires EndsOperand(rest, inParentheses)
    ensures Primary([Minus] + ts, inParentheses) == Ok(Parsed(Operation("-", [operand]), rest))
  {
    assert ([Minus] + ts)[1..] == ts;
    OperandEnds(operand, rest, inParentheses);
    assert Expression(ts, UnaryPower, inParentheses) == Ok(Parsed(operand, rest));
  }

  /** The loop at the unary power stops where `EndsOperand` says. */
  lemma OperandEnds(operand: Expr, rest: seq<Token>, inParentheses: bool)
    requires EndsOperand(rest, inParentheses)
    ensures Loop(operand, rest, UnaryPower, inParentheses) == Ok(Parsed(operand, rest))
  {
    var t := Lookahead(rest);
    if t.kind == Operator && IsBinarySymbol(t.text) {
      assert OperatorPrecedence(t.text).value.left < UnaryPower;
    }
  }

  /** At a minimum above every left power the operator loop takes nothing:
      when it succeeds it returns the tree and tokens it was given. */
  lemma {:induction false} LoopAboveEveryPower(left: Expr, ts: seq<Token>, minPrecedence: nat, inParentheses: bool)
    requires minPrecedence >= UnaryPower
    ensures Loop(left, ts, minPrecedence, inParentheses).Ok? ==>
            Loop(left, ts, minPrecedence, inParentheses) == Ok(Parsed(left, ts))
  {
    var t := Lookahead(ts);
    if ShouldStopParsing(t, inParentheses) == Ok(false) && t.kind == Operator && IsBinarySymbol(t.text) {
      assert OperatorPrecedence(t.text).value.left < minPrecedence;
    }
  }

  /** The operand of a unary minus is a single primary. */
  lemma UnaryOperandIsPrimary(ts: seq<Token>, inParentheses: bool)
    ensures Expression(ts, UnaryPower, inParentheses).Ok? ==>
            Expression(ts, UnaryPower, inParentheses) == Primary(ts, inParentheses)
  {
    var p := Primary(ts, inParentheses);
    if p.Ok? {
      LoopAboveEveryPower(p.value.expr, p.value.rest, UnaryPower, inParentheses);
    }
  }

  /** A parenthesised pair is one primary: the parentheses add no node of
      their own, and parsing resumes right after the `)`. */
  lemma ParenthesisedPair(b: string, op: string, c: string, rest: seq<Token>, inParentheses: bool)
    requires IsBinarySymbol(op)
    ensures Primary([OpenParenthesis, AtomToken(b), OperatorToken(op), AtomToken(c), CloseParenthesis] + rest, inParentheses)
         == Ok(Parsed(Operation(op, [Expr.Atom(b), Expr.Atom(c)]), rest))
  {
    var ts := [OpenParenthesis, AtomToken(b), OperatorToken(op), AtomToken(c), CloseParenthesis] + rest;
    var inner := Operation(op, [Expr.Atom(b), Expr.Atom(c)]);
    assert ts[1..][1..] == ts[2..] && ts[2..][1..] == ts[3..] && ts[3..][1..] == ts[4..] && ts[4..][1..] == rest;
    assert Lookahead(ts[4..]) == CloseParenthesis;
    assert Loop(Expr.Atom(c), ts[4..], RightPower(op), true) == Ok(Parsed(Expr.Atom(c), ts[4..]));
    assert Expression(ts[3..], RightPower(op), true) == Ok(Parsed(Expr.Atom(c), ts[4..]));
    assert Loop(inner, ts[4..], 0, true) == Ok(Parsed(inner, ts[4..]));
    assert Loop(Expr.Atom(b), ts[2..], 0, true) == Ok(Parsed(inner, ts[4..]));
    assert Expression(ts[1..], 0, true) == Ok(Parsed(inner, ts[4..]));
  }

  /** Parentheses override the table: `a o1 (b o2 c)` groups to the right
      whatever the two operators. */
  lemma ParenthesesGroupRight(a: string, o1: string, b: string, o2: string, c: string)
    requires IsBinarySymbol(o1) && IsBinarySymbol(o2)
    ensures Expression([AtomToken(a), OperatorToken(o1), OpenParenthesis, AtomToken(b), OperatorToken(o2), AtomToken(c), CloseParenthesis], 0, false)
         == Ok(Parsed(Operation(o1, [Expr.Atom(a), Operation(o2, [Expr.Atom(b), Expr.Atom(c)])]), []))
  {
    var ts := [AtomToken(a), OperatorToken(o1), OpenParenthesis, AtomToken(b), OperatorToken(o2), AtomToken(c), CloseParenthesis];
    var inner := Operation(o2, [Expr.Atom(b), Expr.Atom(c)]);
    var whole := Operation(o1, [Expr.Atom(a), inner]);
    assert ts[1..][1..] == ts[2..];
    assert ts[2..] == [OpenParenthesis, AtomToken(b), OperatorToken(o2), AtomToken(c), CloseParenthesis] + [];
    ParenthesisedPair(b, o2, c, [], false);
    assert Loop(inner, [], RightPower(o1), false) == Ok(Parsed(inner, []));
    assert Expression(ts[2..], RightPower(o1), false) == Ok(Parsed(inner, []));
    assert Loop(whole, [], 0, false) == Ok(Parsed(whole, []));
    assert Loop(Expr.Atom(a), ts[1..], 0, false) == Ok(Parsed(whole, []));
    assert Primary(ts, false) == Ok(Parsed(Expr.Atom(a), ts[1..]));
  }

  /** Inside parentheses the parse always stops at a `)`, so the check for
      the closing parenthesis never fails. */
  lemma ClosingParenthesisFollows(ts: seq<Token>)
    ensures Expression(ts, 0, true).Ok? ==> ClosingParenthesis(Expression(ts, 0, true).value.rest).Ok?
  {
  }

  /** A successful parse of a whole line leaves nothing: the only place the
      top level may stop is the end of the input. */
  lemma TopLevelConsumesAll(ts: seq<Token>)
    requires forall k | 0 <= k < |ts| :: ts[k].kind != Eof
    ensures Expression(ts, 0, false).Ok? ==> Expression(ts, 0, false).value.rest == []
  {
  }

  /** A token that cannot begin an operand: anything but an atom, `-` or `(`. */
  lemma {:induction false} InvalidStartToken(t: Token, rest: seq<Token>, minPrecedence: nat, inParentheses: bool)
    requires t.kind == Operator && t != Minus && t != OpenParenthesis
    ensures Expression([t] + rest, minPrecedence, inParentheses) == Fail(InvalidStart(t.text))
  {
    assert Primary([t] + rest, inParentheses) == Fail(InvalidStart(t.text));
  }

  /** Two operands in a row: the second is reported where an operator was expected. */
  lemma {:induction false} OperandAfterOperand(a: string, b: string, rest: seq<Token>, minPrecedence: nat, inParentheses: bool)
    ensures Expression([AtomToken(a), AtomToken(b)] + rest, minPrecedence, inParentheses) == Fail(ExpectedOperator(b))
  {
    var ts := [AtomToken(a), AtomToken(b)] + rest;
    assert ts[1..] == [AtomToken(b)] + rest;
    assert Loop(Expr.Atom(a), ts[1..], minPrecedence, inParentheses) == Fail(ExpectedOperator(b));
  }

  /** An operator symbol outside the table, after an operand, is unknown to
      the parser; this is what the comparison symbols meet, whatever their
      meaning in the evaluator. */
  lemma {:induction false} UnknownSymbolAfterOperand(a: string, op: string, rest: seq<Token>, minPrecedence: nat, inParentheses: bool)
    requires !IsBinarySymbol(op) && op != ")"
    ensures Expression([AtomToken(a), OperatorToken(op)] + rest, minPrecedence, inParentheses) == Fail(UnknownOperator(op))
  {
    var ts := [AtomToken(a), OperatorToken(op)] + rest;
    assert ts[1..] == [OperatorToken(op)] + rest;
    assert Loop(Expr.Atom(a), ts[1..], minPrecedence, inParentheses) == Fail(UnknownOperator(op));
  }

  /** A `)` at the top level, after a complete operand, is unexpected. */
  lemma {:induction false} StrayClosingParenthesis(left: Expr, rest: seq<Token>, minPrecedence: nat)
    ensures Loop(left, [CloseParenthesis] + rest, minPrecedence, false) == Fail(UnexpectedClosingParenthesis)
  {
  }

  /** The input ending inside parentheses, after a complete operand. */
  lemma {:induction false} EndInsideParentheses(left: Expr, minPrecedence: nat)
    ensures Loop(left, [], minPrecedence, true) == Fail(UnterminatedParenthesis)
  {
  }

  /** `((b op c)`: the inner pair closes, the outer one never does. */
  lemma UnclosedAroundPair(b: string, op: string, c: string)
    requires IsBinarySymbol(op)
    ensures Expression([OpenParenthesis] + [OpenParenthesis, AtomToken(b), OperatorToken(op), AtomToken(c), CloseParenthesis], 0, false)
         == Fail(UnterminatedParenthesis)
  {
    var pair := Operation(op, [Expr.Atom(b), Expr.Atom(c)]);
    var inner := [OpenParenthesis, AtomToken(b), OperatorToken(op), AtomToken(c), CloseParenthesis];
    var ts := [OpenParenthesis] + inner;
    assert ts[1..] == inner == inner + [];
    ParenthesisedPair(b, op, c, [], true);
    EndInsideParentheses(pair, 0);
    assert Expression(inner, 0, true) == Fail(UnterminatedParenthesis);
    assert Primary(ts, false) == Fail(UnterminatedParenthesis);
  }

  /** `(b op c))`: the second `)` has nothing to close. */
  lemma ClosedTwiceAfterPair(b: string, op: string, c: string)
    requires IsBinarySymbol(op)
    ensures Expression([OpenParenthesis, AtomToken(b), OperatorToken(op), AtomToken(c), CloseParenthesis] + [CloseParenthesis], 0, false)
         == Fail(UnexpectedClosingParenthesis)
  {
    var pair := Operation(op, [Expr.Atom(b), Expr.Atom(c)]);
    ParenthesisedPair(b, op, c, [CloseParenthesis], false);
    assert [CloseParenthesis] == [CloseParenthesis] + [];
    StrayClosingParenthesis(pair, [], 0);
  }

  /** A line of whitespace alone starts with the end-of-input sentinel. */
  lemma BlankLine(line: string)
    requires forall k | 0 <= k < |line| :: Chars.IsWhitespace(line[k])
    ensures ParseLine(line) == Fail(InvalidStart("\0"))
  {
    BlankScansToNothing(line, 0);
    assert Primary([], false) == Fail(InvalidStart("\0"));
  }

  /** The evaluation errors a parsed tree can meet: the operand-count and
      unknown-symbol errors of evaluation are unreachable after parsing. */
  predicate ReachableEvaluationError(e: Error) {
    e.InvalidAtomValue? || e.UndefinedVariable? || e == DivisionByZero || e == AssignmentNotEvaluable
  }

  lemma {:induction false} ShapedTreeErrors(e: Expr, variables: map<string, real>)
    requires Shaped(e)
    ensures Expressions.Eval(e, variables).Fail? ==> ReachableEvaluationError(Expressions.Eval(e, variables).error)
  {
    match e
    case Atom(_) =>
    case Operation(op, operands) =>
      ShapedTreeErrors(operands[0], variables);
      if |operands| == 2 {
        ShapedTreeErrors(operands[1], variables);
      }
  }
}
