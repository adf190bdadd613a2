/** Character classes used by the tokenizer and by the atom patterns.
    Only the ASCII part of Java's Unicode-aware classes is modelled. */
module Chars {

  /** `Character.isDigit` restricted to ASCII, and the regex class `\d`. */
  predicate IsDigit(c: char) {
    '0' <= c <= '9'
  }

  /** `Character.isLetter` restricted to ASCII, and the regex class `[A-Za-z]`. */
  predicate IsLetter(c: char) {
    'A' <= c <= 'Z' || 'a' <= c <= 'z'
  }

  predicate IsLetterOrDigit(c: char) {
    IsLetter(c) || IsDigit(c)
  }

  /** `Character.isWhitespace` on ASCII: space, tab through carriage return,
      and the four information separators U+001C..U+001F. */
  predicate IsWhitespace(c: char) {
    c == ' ' || (9 <= c as int <= 13) || (28 <= c as int <= 31)
  }
}
