/** Tokens: an immutable pair of a kind and the raw text. */
module Tokens {

  /** Exactly three kinds; the lexer makes only the first two. */
  datatype TokenType = Atom | Operator | Eof

  datatype Token = Token(kind: TokenType, text: string)

  /** The shared end-of-input sentinel, with text NUL. The parser recognises
      it by identity; no token the lexer builds is equal to it, so equality
      of values stands for that identity here. */
  const EOF: Token := Token(Eof, "\0")

  const OpenParenthesis: Token := Token(Operator, "(")
  const CloseParenthesis: Token := Token(Operator, ")")
  const Minus: Token := Token(Operator, "-")
}
