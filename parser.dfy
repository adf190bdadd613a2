/** Precedence climbing. The functions `Expression`, `Primary` and `Loop`
    say what parsing a token list yields and what it leaves unconsumed; the
    methods `ParseExpression` and `ParsePrimary` do the same work on a
    `Lexer` object, pulling tokens one at a time, and are proved to agree
    with the functions. Binding powers are the source's, scaled by ten. */
module Parsing {
  import opened Tokens
  import opened Errors
  import opened Expressions
  import opened Lexing

  /** Left and right binding power of a binary operator. */
  datatype Powers = Powers(left: nat, right: nat)

  /** The minimum power for the operand of a unary minus (3.0 in the source). */
  const UnaryPower: nat := 30

  predicate IsBinarySymbol(op: string) {
    op == "=" || op == "+" || op == "-" || op == "*" || op == "/"
  }

  /** The binding-power table. Right above left makes a tier associate to
      the left; `=` alone has right below left and associates to the right. */
  function OperatorPrecedence(op: string): (r: Outcome<Powers>)
    ensures r.Ok? <==> IsBinarySymbol(op)
    ensures r.Fail? ==> r.error == UnknownOperator(op)
    ensures r.Ok? ==> 0 < r.value.left < UnaryPower && r.value.right < UnaryPower
    ensures r.Ok? ==> (r.value.left < r.value.right <==> op != "=")
  {
    if op == "=" then Ok(Powers(2, 1))
    else if op == "+" || op == "-" then Ok(Powers(10, 11))
    else if op == "*" || op == "/" then Ok(Powers(20, 21))
    else Fail(UnknownOperator(op))
  }

  function LeftPower(op: string): nat
    requires IsBinarySymbol(op)
  {
    OperatorPrecedence(op).value.left
  }

  function RightPower(op: string): nat
    requires IsBinarySymbol(op)
  {
    OperatorPrecedence(op).value.right
  }

  /** Whether the operator loop ends at `t`: the sentinel ends it outside
      parentheses and is an error inside; `)` ends it inside and is an
      error outside; every other token lets the loop go on. */
  function ShouldStopParsing(t: Token, inParentheses: bool): (r: Outcome<bool>)
    ensures r == Fail(UnterminatedParenthesis) <==> t == EOF && inParentheses
    ensures r == Fail(UnexpectedClosingParenthesis) <==> t == CloseParenthesis && !inParentheses
    ensures r == Ok(true) <==> (t == EOF && !inParentheses) || (t == CloseParenthesis && inParentheses)
    ensures r.Ok? || r == Fail(UnterminatedParenthesis) || r == Fail(UnexpectedClosingParenthesis)
  {
    if t == EOF then
      if inParentheses then Fail(UnterminatedParenthesis) else Ok(true)
    else if t.kind == Operator && t.text == ")" then
      if !inParentheses then Fail(UnexpectedClosingParenthesis) else Ok(true)
    else Ok(false)
  }

  /** The shape of every tree the parser builds: unary nodes are `-` with
      one operand, binary nodes carry a symbol of the table and two operands. */
  predicate Shaped(e: Expr) {
    match e
    case Atom(_) => true
    case Operation(op, operands) =>
      || (|operands| == 1 && op == "-" && Shaped(operands[0]))
      || (|operands| == 2 && IsBinarySymbol(op) && Shaped(operands[0]) && Shaped(operands[1]))
  }

  /** A parse result: the tree and the tokens left after it. */
  datatype Parsed = Parsed(expr: Expr, rest: seq<Token>)

  predicate Suffix(rest: seq<Token>, ts: seq<Token>) {
    |rest| <= |ts| && ts[|ts| - |rest|..] == rest
  }

  lemma SuffixTransitive(a: seq<Token>, b: seq<Token>, c: seq<Token>)
    requires Suffix(a, b) && Suffix(b, c)
    ensures Suffix(a, c)
  {
    assert c[|c| - |a|..] == c[|c| - |b|..][|b| - |a|..];
  }

  /** Where a successful operator loop may stop: at the sentinel outside
      parentheses, at `)` inside them, or at an operator that binds less
      than the loop's minimum. */
  predicate Stopped(rest: seq<Token>, minPrecedence: nat, inParentheses: bool) {
    var t := Lookahead(rest);
    || (t == EOF && !inParentheses)
    || (t == CloseParenthesis && inParentheses)
    || (t.kind == Operator && IsBinarySymbol(t.text) && LeftPower(t.text) < minPrecedence)
  }

  /** `parseExpression`: a primary, then the operator loop. */
  function Expression(ts: seq<Token>, minPrecedence: nat, inParentheses: bool): (r: Outcome<Parsed>)
    ensures r.Fail? ==> r.error.IsSyntaxError()
    ensures r.Ok? ==> |r.value.rest| < |ts| && Suffix(r.value.rest, ts)
    ensures r.Ok? ==> Shaped(r.value.expr)
    ensures r.Ok? ==> Stopped(r.value.rest, minPrecedence, inParentheses)
    decreases |ts|, 2
  {
    match Primary(ts, inParentheses)
    case Fail(e) => Fail(e)
    case Ok(p) =>
      var r := Loop(p.expr, p.rest, minPrecedence, inParentheses);
      if r.Ok? then SuffixTransitive(r.value.rest, p.rest, ts); r else r
  }

  /** `parsePrimary`: an atom, a unary minus over an operand parsed at the
      unary power, or a parenthesised expression that adds no node. */
  function Primary(ts: seq<Token>, inParentheses: bool): (r: Outcome<Parsed>)
    ensures r.Fail? ==> r.error.IsSyntaxError()
    ensures r.Ok? ==> |r.value.rest| < |ts| && Suffix(r.value.rest, ts)
    ensures r.Ok? ==> Shaped(r.value.expr)
    decreases |ts|, 1
  {
    var t := Lookahead(ts);
    if t.kind == TokenType.Atom then
      Ok(Parsed(Expr.Atom(t.text), ts[1..]))
    else if t == Minus then
      match Expression(ts[1..], UnaryPower, inParentheses)
      case Fail(e) => Fail(e)
      case Ok(p) =>
        SuffixTransitive(p.rest, ts[1..], ts);
        Ok(Parsed(Operation("-", [p.expr]), p.rest))
    else if t == OpenParenthesis then
      match Expression(ts[1..], 0, true)
      case Fail(e) => Fail(e)
      case Ok(p) =>
        match ClosingParenthesis(p.rest)
        case Fail(e) => Fail(e)
        case Ok(rest) =>
          SuffixTransitive(p.rest, ts[1..], ts);
          SuffixTransitive(rest, p.rest, ts);
          Ok(Parsed(p.expr, rest))
    else Fail(InvalidStart(t.text))
  }

  /** The operator loop of `parseExpression`, from the tree built so far. */
  function Loop(left: Expr, ts: seq<Token>, minPrecedence: nat, inParentheses: bool): (r: Outcome<Parsed>)
    ensures r.Fail? ==> r.error.IsSyntaxError()
    ensures r.Ok? ==> |r.value.rest| <= |ts| && Suffix(r.value.rest, ts)
    ensures r.Ok? && Shaped(left) ==> Shaped(r.value.expr)
    ensures r.Ok? ==> Stopped(r.value.rest, minPrecedence, inParentheses)
    decreases |ts|, 0
  {
    var t := Lookahead(ts);
    match ShouldStopParsing(t, inParentheses)
    case Fail(e) => Fail(e)
    case Ok(stop) =>
      if stop then Ok(Parsed(left, ts))
      else if t.kind != Operator then Fail(ExpectedOperator(t.text))
      else
        match OperatorPrecedence(t.text)
        case Fail(e) => Fail(e)
        case Ok(powers) =>
          if powers.left < minPrecedence then Ok(Parsed(left, ts))
          else
            match Expression(ts[1..], powers.right, inParentheses)
            case Fail(e) => Fail(e)
            case Ok(p) =>
              var r := Loop(Operation(t.text, [left, p.expr]), p.rest, minPrecedence, inParentheses);
              if r.Ok? then
                SuffixTransitive(p.rest, ts[1..], ts);
                SuffixTransitive(r.value.rest, p.rest, ts);
                r
              else r
  }

  /** `expectClosingParenthesis`: consumes a `)` or fails naming what it found. */
  function ClosingParenthesis(ts: seq<Token>): (r: Outcome<seq<Token>>)
    ensures r.Ok? <==> Lookahead(ts) == CloseParenthesis
    ensures r.Ok? ==> ts != [] && r.value == ts[1..]
    ensures r.Fail? ==> r.error == ExpectedClosingParenthesis(Lookahead(ts).text)
  {
    var t := Lookahead(ts);
    if t.kind != Operator || t.text != ")" then Fail(ExpectedClosingParenthesis(t.text)) else Ok(ts[1..])
  }

  /** `Expression.fromString`: the whole line, at minimum power 0, outside parentheses. */
  function ParseLine(line: string): (r: Outcome<Expr>)
    ensures r.Fail? ==> r.error.IsSyntaxError()
    ensures r.Ok? ==> Shaped(r.value)
  {
    match Expression(Scan(line, 0), 0, false)
    case Fail(e) => Fail(e)
    case Ok(p) => Ok(p.expr)
  }

  // ---------------------------------------------------------------------
  // The parser over a lexer object

  /** The method's outcome is the function's tree, and the lexer holds
      exactly the tokens the function leaves; on failure the error is the
      function's (the lexer is discarded then). */
  ghost predicate Agrees(r: Outcome<Expr>, spec: Outcome<Parsed>, pending: seq<Token>) {
    match spec
    case Ok(p) => r == Ok(p.expr) && pending == p.rest
    case Fail(e) => r == Fail(e)
  }

  method Parse(lexer: Lexer, minPrecedence: nat) returns (r: Outcome<Expr>)
    modifies lexer
    ensures Agrees(r, Expression(old(lexer.Pending()), minPrecedence, false), lexer.Pending())
  {
    r := ParseExpression(lexer, minPrecedence, false);
  }

  method ParseExpression(lexer: Lexer, minPrecedence: nat, inParentheses: bool) returns (r: Outcome<Expr>)
    modifies lexer
    ensures Agrees(r, Expression(old(lexer.Pending()), minPrecedence, inParentheses), lexer.Pending())
    decreases |lexer.tokens|, 2
  {
    ghost var ts := lexer.Pending();
    var primary := ParsePrimary(lexer, inParentheses);
    if primary.Fail? {
      return Fail(primary.error);
    }
    var left := primary.value;
    while true
      invariant Expression(ts, minPrecedence, inParentheses) == Loop(left, lexer.Pending(), minPrecedence, inParentheses)
      invariant |lexer.tokens| < |old(lexer.tokens)|
      decreases |lexer.tokens|
    {
      var lookahead := lexer.Peek();
      var stop := ShouldStopParsing(lookahead, inParentheses);
      if stop.Fail? {
        return Fail(stop.error);
      }
      if stop.value {
        break;
      }
      if lookahead.kind != Operator {
        return Fail(ExpectedOperator(lookahead.text));
      }
      var powers := OperatorPrecedence(lookahead.text);
      if powers.Fail? {
        return Fail(powers.error);
      }
      if powers.value.left < minPrecedence {
        break;
      }
      var _ := lexer.Next();
      var right := ParseExpression(lexer, powers.value.right, inParentheses);
      if right.Fail? {
        return Fail(right.error);
      }
      left := Operation(lookahead.text, [left, right.value]);
    }
    return Ok(left);
  }

  method ParsePrimary(lexer: Lexer, inParentheses: bool) returns (r: Outcome<Expr>)
    modifies lexer
    ensures Agrees(r, Primary(old(lexer.Pending()), inParentheses), lexer.Pending())
    decreases |lexer.tokens|, 1
  {
    var nextToken := lexer.Next();
    if nextToken.kind == TokenType.Atom {
      return Ok(Expr.Atom(nextToken.text));
    }
    if nextToken == Minus {
      var operand := ParseExpression(lexer, UnaryPower, inParentheses);
      if operand.Fail? {
        return Fail(operand.error);
      }
      return Ok(Operation("-", [operand.value]));
    }
    if nextToken == OpenParenthesis {
      var inner := ParseExpression(lexer, 0, true);
      if inner.Fail? {
        return Fail(inner.error);
      }
      var closed := ExpectClosingParenthesis(lexer);
      if closed.Fail? {
        // The inner loop stops inside parentheses only at `)`
        // (see `ClosingParenthesisFollows`), so this error is never raised.
        assert false;
      }
      return inner;
    }
    return Fail(InvalidStart(nextToken.text));
  }

  method ExpectClosingParenthesis(lexer: Lexer) returns (r: Outcome<()>)
    modifies lexer
    ensures match ClosingParenthesis(old(lexer.Pending()))
      case Ok(rest) => r.Ok? && lexer.Pending() == rest
      case Fail(e) => r == Fail(e)
  {
    var closing := lexer.Next();
    if closing.kind != Operator || closing.text != ")" {
      return Fail(ExpectedClosingParenthesis(closing.text));
    }
    return Ok(());
  }

  /** `Expression.fromString`: a lexer over the line, then `parse` at 0. */
  method FromString(input: string) returns (r: Outcome<Expr>)
    ensures r == ParseLine(input)
  {
    var lexer := new Lexer(input);
    r := Parse(lexer, 0);
  }
}
