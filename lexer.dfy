/** The tokenizer. `Scan` is the specification: the tokens of a line from a
    position on. The class `Lexer` is the object the parser pulls tokens
    from; its methods build the token list in place and are proved to build
    exactly `Scan`, and to serve it in input order. */
module Lexing {
  import opened Chars
  import opened Tokens

  // ---------------------------------------------------------------------
  // Lexemes

  /** A number starts at a digit, or at a `.` immediately followed by a digit. */
  predicate StartsNumber(s: string, i: nat)
    requires i < |s|
  {
    IsDigit(s[i]) || (s[i] == '.' && i + 1 < |s| && IsDigit(s[i + 1]))
  }

  /** Where a number that is scanned from `i` ends: digits are taken, and one
      `.` while none has been seen. */
  function NumberEnd(s: string, i: nat, seenDot: bool): (j: nat)
    requires i <= |s|
    ensures i <= j <= |s|
    ensures i < |s| && (IsDigit(s[i]) || (s[i] == '.' && !seenDot)) ==> i < j
    decreases |s| - i
  {
    if i < |s| && IsDigit(s[i]) then NumberEnd(s, i + 1, seenDot)
    else if i < |s| && s[i] == '.' && !seenDot then NumberEnd(s, i + 1, true)
    else i
  }

  /** A number run holds digits and at most one `.` (none once one has been
      seen), and it stops at the first character that cannot extend it. */
  lemma {:induction false} NumberRun(s: string, i: nat, seenDot: bool)
    requires i <= |s|
    ensures var j := NumberEnd(s, i, seenDot);
      && (forall k | i <= k < j :: IsDigit(s[k]) || s[k] == '.')
      && (seenDot ==> forall k | i <= k < j :: IsDigit(s[k]))
      && (forall a, b | i <= a < b < j :: s[a] != '.' || s[b] != '.')
      && (j == |s| || (!IsDigit(s[j]) && (s[j] != '.' || seenDot || exists k | i <= k < j :: s[k] == '.')))
    decreases |s| - i
  {
    if i < |s| && IsDigit(s[i]) {
      NumberRun(s, i + 1, seenDot);
    } else if i < |s| && s[i] == '.' && !seenDot {
      NumberRun(s, i + 1, true);
    }
  }

  /** A number starts exactly where the number loop takes a number lexeme. */
  lemma NumberStart(s: string, i: nat)
    requires i < |s|
    ensures StartsNumber(s, i) <==> NumberLexeme(s[i..NumberEnd(s, i, false)])
  {
    var j := NumberEnd(s, i, false);
    NumberRun(s, i, false);
    var t := s[i..j];
    assert forall k | 0 <= k < |t| :: t[k] == s[i + k];
    if s[i] == '.' && !(i + 1 < |s| && IsDigit(s[i + 1])) {
      assert NumberEnd(s, i, false) == NumberEnd(s, i + 1, true);
      if i + 1 < |s| && s[i + 1] == '.' {
        assert NumberEnd(s, i + 1, true) == i + 1;
      }
      assert j == i + 1;
    }
  }

  /** Where an identifier that is scanned from `i` ends: letters and digits are taken. */
  function IdentifierEnd(s: string, i: nat): (j: nat)
    requires i <= |s|
    ensures i <= j <= |s|
    ensures i < |s| && IsLetterOrDigit(s[i]) ==> i < j
    ensures j == |s| || !IsLetterOrDigit(s[j])
    decreases |s| - i
  {
    if i < |s| && IsLetterOrDigit(s[i]) then IdentifierEnd(s, i + 1) else i
  }

  /** An identifier run holds only letters and digits. */
  lemma {:induction false} IdentifierRun(s: string, i: nat)
    requires i <= |s|
    ensures forall k | i <= k < IdentifierEnd(s, i) :: IsLetterOrDigit(s[k])
    decreases |s| - i
  {
    if i < |s| && IsLetterOrDigit(s[i]) {
      IdentifierRun(s, i + 1);
    }
  }

  /** Text of a number token: a digit or `.digit` first, then digits and at
      most one `.` in all. */
  predicate NumberLexeme(t: string) {
    && |t| >= 1
    && (IsDigit(t[0]) || (|t| >= 2 && t[0] == '.' && IsDigit(t[1])))
    && (forall k | 0 <= k < |t| :: IsDigit(t[k]) || t[k] == '.')
    && (forall a, b | 0 <= a < b < |t| :: t[a] != '.' || t[b] != '.')
  }

  /** Text of an identifier token: a letter, then letters and digits. */
  predicate IdentifierLexeme(t: string) {
    |t| >= 1 && IsLetter(t[0]) && forall k | 0 <= k < |t| :: IsLetterOrDigit(t[k])
  }

  /** Text of an operator token: one character that is not whitespace, a letter or a digit. */
  predicate OperatorLexeme(t: string) {
    |t| == 1 && !IsWhitespace(t[0]) && !IsLetterOrDigit(t[0])
  }

  /** What every token the lexer builds looks like. */
  predicate LexerToken(t: Token) {
    || (t.kind == Atom && (NumberLexeme(t.text) || IdentifierLexeme(t.text)))
    || (t.kind == Operator && OperatorLexeme(t.text))
  }

  // ---------------------------------------------------------------------
  // The specification of tokenizing

  /** The tokens of `s` from position `i` on, in input order: every token
      takes at least one character, and a visible character at `i` starts one. */
  function Scan(s: string, i: nat): (r: seq<Token>)
    requires i <= |s|
    ensures |r| <= |s| - i
    ensures i < |s| && !IsWhitespace(s[i]) ==> r != []
    decreases |s| - i
  {
    if i == |s| then []
    else if IsWhitespace(s[i]) then Scan(s, i + 1)
    else if StartsNumber(s, i) then
      var j := NumberEnd(s, i, false);
      [Token(Atom, s[i..j])] + Scan(s, j)
    else if IsLetter(s[i]) then
      var j := IdentifierEnd(s, i);
      [Token(Atom, s[i..j])] + Scan(s, j)
    else [Token(Operator, [s[i]])] + Scan(s, i + 1)
  }

  /** Every token of a line is a number atom, an identifier atom or a
      one-character operator; none has the end-of-input kind. */
  lemma {:induction false} ScanTokens(s: string, i: nat)
    requires i <= |s|
    ensures forall k | 0 <= k < |Scan(s, i)| :: LexerToken(Scan(s, i)[k])
    decreases |s| - i
  {
    if i < |s| {
      if IsWhitespace(s[i]) {
        ScanTokens(s, i + 1);
      } else if StartsNumber(s, i) {
        var j := NumberEnd(s, i, false);
        NumberRun(s, i, false);
        assert NumberLexeme(s[i..j]) by {
          assert forall k | 0 <= k < j - i :: s[i..j][k] == s[i + k];
        }
        ScanTokens(s, j);
      } else if IsLetter(s[i]) {
        var j := IdentifierEnd(s, i);
        IdentifierRun(s, i);
        assert IdentifierLexeme(s[i..j]) by {
          assert forall k | 0 <= k < j - i :: s[i..j][k] == s[i + k];
        }
        ScanTokens(s, j);
      } else {
        ScanTokens(s, i + 1);
      }
    }
  }

  /** The line with every whitespace character taken out. */
  function WithoutWhitespace(s: string): string {
    if s == [] then []
    else (if IsWhitespace(s[0]) then [] else [s[0]]) + WithoutWhitespace(s[1..])
  }

  /** The token texts, one after the other. */
  function Concat(ts: seq<Token>): string {
    if ts == [] then [] else ts[0].text + Concat(ts[1..])
  }

  lemma {:induction false} WithoutWhitespaceKeeps(t: string, u: string)
    requires forall k | 0 <= k < |t| :: !IsWhitespace(t[k])
    ensures WithoutWhitespace(t + u) == t + WithoutWhitespace(u)
    decreases |t|
  {
    if t != [] {
      assert (t + u)[0] == t[0] && !IsWhitespace(t[0]);
      assert (t + u)[1..] == t[1..] + u;
      WithoutWhitespaceKeeps(t[1..], u);
      calc {
        WithoutWhitespace(t + u);
        [t[0]] + WithoutWhitespace(t[1..] + u);
        [t[0]] + (t[1..] + WithoutWhitespace(u));
        { assert t == [t[0]] + t[1..]; }
        t + WithoutWhitespace(u);
      }
    } else {
      assert t + u == u;
    }
  }

  lemma ConcatFront(t: Token, rest: seq<Token>)
    ensures Concat([t] + rest) == t.text + Concat(rest)
  {
    assert ([t] + rest)[1..] == rest;
  }

  lemma WithoutWhitespaceFront(s: string, i: nat)
    requires i < |s|
    ensures WithoutWhitespace(s[i..]) == (if IsWhitespace(s[i]) then [] else [s[i]]) + WithoutWhitespace(s[i + 1..])
  {
    assert s[i..][1..] == s[i + 1..];
  }

  /** One step of `ScanConcat`: a token that covers `s[i..j]`, before
      tokens whose texts make up the rest of the line. */
  lemma ConcatToken(s: string, i: nat, j: nat, t: Token, rest: seq<Token>)
    requires i <= j <= |s| && t.text == s[i..j]
    requires forall k | 0 <= k < |t.text| :: !IsWhitespace(t.text[k])
    requires Concat(rest) == WithoutWhitespace(s[j..])
    ensures Concat([t] + rest) == WithoutWhitespace(s[i..])
  {
    ConcatFront(t, rest);
    assert s[i..] == s[i..j] + s[j..];
    WithoutWhitespaceKeeps(s[i..j], s[j..]);
  }

  lemma ScanNumberStep(s: string, i: nat)
    requires i < |s| && !IsWhitespace(s[i]) && StartsNumber(s, i)
    ensures var j := NumberEnd(s, i, false); Scan(s, i) == [Token(Atom, s[i..j])] + Scan(s, j)
  {
  }

  lemma ScanIdentifierStep(s: string, i: nat)
    requires i < |s| && !IsWhitespace(s[i]) && !StartsNumber(s, i) && IsLetter(s[i])
    ensures var j := IdentifierEnd(s, i); Scan(s, i) == [Token(Atom, s[i..j])] + Scan(s, j)
  {
  }

  /** A run of letters, digits and dots holds no whitespace. */
  lemma VisibleRun(s: string, i: nat, j: nat)
    requires i <= j <= |s|
    requires forall k | i <= k < j :: IsDigit(s[k]) || IsLetter(s[k]) || s[k] == '.'
    ensures forall k | 0 <= k < j - i :: !IsWhitespace(s[i..j][k])
  {
    assert forall k | 0 <= k < j - i :: s[i..j][k] == s[i + k];
  }

  lemma ScanOperatorStep(s: string, i: nat)
    requires i < |s| && !IsWhitespace(s[i]) && !StartsNumber(s, i) && !IsLetter(s[i])
    ensures Scan(s, i) == [Token(Operator, s[i..i + 1])] + Scan(s, i + 1)
  {
    assert s[i..i + 1] == [s[i]];
  }

  /** Nothing of the line is lost or reordered: the token texts, concatenated,
      are the line without its whitespace. */
  lemma {:induction false} ScanConcat(s: string, i: nat)
    requires i <= |s|
    ensures Concat(Scan(s, i)) == WithoutWhitespace(s[i..])
    decreases |s| - i
  {
    if i < |s| {
      if IsWhitespace(s[i]) {
        ScanConcat(s, i + 1);
        WithoutWhitespaceFront(s, i);
      } else if StartsNumber(s, i) {
        ScanConcat(s, NumberEnd(s, i, false));
        ConcatNumber(s, i);
      } else if IsLetter(s[i]) {
        ScanConcat(s, IdentifierEnd(s, i));
        ConcatIdentifier(s, i);
      } else {
        ScanConcat(s, i + 1);
        ConcatOperator(s, i);
      }
    }
  }

  lemma ConcatNumber(s: string, i: nat)
    requires i < |s| && !IsWhitespace(s[i]) && StartsNumber(s, i)
    requires var j := NumberEnd(s, i, false); Concat(Scan(s, j)) == WithoutWhitespace(s[j..])
    ensures Concat(Scan(s, i)) == WithoutWhitespace(s[i..])
  {
    var j := NumberEnd(s, i, false);
    assert Scan(s, i) == [Token(Atom, s[i..j])] + Scan(s, j) by {
      ScanNumberStep(s, i);
    }
    assert forall k | 0 <= k < j - i :: !IsWhitespace(s[i..j][k]) by {
      NumberRun(s, i, false);
      VisibleRun(s, i, j);
    }
    ConcatToken(s, i, j, Token(Atom, s[i..j]), Scan(s, j));
  }

  lemma ConcatIdentifier(s: string, i: nat)
    requires i < |s| && !IsWhitespace(s[i]) && !StartsNumber(s, i) && IsLetter(s[i])
    requires var j := IdentifierEnd(s, i); Concat(Scan(s, j)) == WithoutWhitespace(s[j..])
    ensures Concat(Scan(s, i)) == WithoutWhitespace(s[i..])
  {
    var j := IdentifierEnd(s, i);
    assert Scan(s, i) == [Token(Atom, s[i..j])] + Scan(s, j) by {
      ScanIdentifierStep(s, i);
    }
    assert forall k | 0 <= k < j - i :: !IsWhitespace(s[i..j][k]) by {
      IdentifierRun(s, i);
      VisibleRun(s, i, j);
    }
    ConcatToken(s, i, j, Token(Atom, s[i..j]), Scan(s, j));
  }

  lemma ConcatOperator(s: string, i: nat)
    requires i < |s| && !IsWhitespace(s[i]) && !StartsNumber(s, i) && !IsLetter(s[i])
    requires Concat(Scan(s, i + 1)) == WithoutWhitespace(s[i + 1..])
    ensures Concat(Scan(s, i)) == WithoutWhitespace(s[i..])
  {
    assert Scan(s, i) == [Token(Operator, s[i..i + 1])] + Scan(s, i + 1) by {
      ScanOperatorStep(s, i);
    }
    ConcatToken(s, i, i + 1, Token(Operator, s[i..i + 1]), Scan(s, i + 1));
  }

  /** A line of whitespace alone has no tokens. */
  lemma {:induction false} BlankScansToNothing(s: string, i: nat)
    requires i <= |s|
    requires forall k | i <= k < |s| :: IsWhitespace(s[k])
    ensures Scan(s, i) == []
    decreases |s| - i
  {
    if i < |s| {
      BlankScansToNothing(s, i + 1);
    }
  }

  /** Maximal munch for numbers: a run of digits is one token, which ends
      at the first character that is neither a digit nor a `.`. */
  lemma {:induction false} ScanDigitRun(s: string, i: nat, j: nat)
    requires i < j <= |s|
    requires forall k | i <= k < j :: IsDigit(s[k])
    requires j == |s| || (!IsDigit(s[j]) && s[j] != '.')
    ensures Scan(s, i) == [Token(Atom, s[i..j])] + Scan(s, j)
  {
    DigitRunEnd(s, i, j);
  }

  lemma {:induction false} DigitRunEnd(s: string, i: nat, j: nat)
    requires i <= j <= |s|
    requires forall k | i <= k < j :: IsDigit(s[k])
    requires j == |s| || (!IsDigit(s[j]) && s[j] != '.')
    ensures NumberEnd(s, i, false) == j
    decreases j - i
  {
    if i < j {
      DigitRunEnd(s, i + 1, j);
    }
  }

  /** Maximal munch for names: a letter and the letters and digits after it
      are one token. */
  lemma {:induction false} ScanNameRun(s: string, i: nat, j: nat)
    requires i < j <= |s| && IsLetter(s[i])
    requires forall k | i <= k < j :: IsLetterOrDigit(s[k])
    requires j == |s| || !IsLetterOrDigit(s[j])
    ensures Scan(s, i) == [Token(Atom, s[i..j])] + Scan(s, j)
  {
    NameRunEnd(s, i, j);
  }

  lemma {:induction false} NameRunEnd(s: string, i: nat, j: nat)
    requires i <= j <= |s|
    requires forall k | i <= k < j :: IsLetterOrDigit(s[k])
    requires j == |s| || !IsLetterOrDigit(s[j])
    ensures IdentifierEnd(s, i) == j
    decreases j - i
  {
    if i < j {
      NameRunEnd(s, i + 1, j);
    }
  }

  /** Any other visible character is an operator token on its own. */
  lemma ScanSymbol(s: string, i: nat)
    requires i < |s| && !IsWhitespace(s[i]) && !IsLetterOrDigit(s[i]) && s[i] != '.'
    ensures Scan(s, i) == [Token(Operator, [s[i]])] + Scan(s, i + 1)
  {
  }

  /** Whitespace between tokens is skipped. */
  lemma ScanSpace(s: string, i: nat)
    requires i < |s| && IsWhitespace(s[i])
    ensures Scan(s, i) == Scan(s, i + 1)
  {
  }

  // ---------------------------------------------------------------------
  // Maximal munch, and lexing a written-out token list

  /** A number run that stops before any digit or `.` ends where it stops. */
  lemma {:induction false} DottedRunEnd(s: string, i: nat, j: nat, seenDot: bool)
    requires i <= j <= |s|
    requires forall k | i <= k < j :: IsDigit(s[k]) || (s[k] == '.' && !seenDot)
    requires forall a, b | i <= a < b < j :: s[a] != '.' || s[b] != '.'
    requires j == |s| || (!IsDigit(s[j]) && s[j] != '.')
    ensures NumberEnd(s, i, seenDot) == j
    decreases j - i
  {
    if i < j {
      if IsDigit(s[i]) {
        DottedRunEnd(s, i + 1, j, seenDot);
      } else {
        assert forall k | i + 1 <= k < j :: s[k] != '.';
        DottedRunEnd(s, i + 1, j, true);
      }
    }
  }

  /** `c`, written right after the lexer token `t`, is not taken into it:
      it is whitespace or cannot continue `t`'s lexeme (a name takes
      letters and digits, a number digits and a `.`), and a `.` operator is
      not followed by a digit, with which it would start a number. */
  predicate Delimits(t: Token, c: char) {
    || IsWhitespace(c)
    || (t.kind == Operator && (t.text != "." || !IsDigit(c)))
    || (t.kind == Atom && |t.text| > 0 && IsLetter(t.text[0]) && !IsLetterOrDigit(c))
    || (t.kind == Atom && |t.text| > 0 && !IsLetter(t.text[0]) && !IsDigit(c) && c != '.')
  }

  /** Maximal munch: a lexeme followed by the end of the line or by a
      character that delimits it is scanned as exactly that token. */
  lemma ScanLexeme(s: string, i: nat, t: Token)
    requires LexerToken(t)
    requires i + |t.text| <= |s| && s[i..i + |t.text|] == t.text
    requires i + |t.text| == |s| || Delimits(t, s[i + |t.text|])
    ensures Scan(s, i) == [t] + Scan(s, i + |t.text|)
  {
    var j := i + |t.text|;
    assert forall k | 0 <= k < |t.text| :: s[i + k] == t.text[k] by {
      forall k | 0 <= k < |t.text| ensures s[i + k] == t.text[k] {
        assert s[i..j][k] == s[i + k];
      }
    }
    if t.kind == Operator {
      assert [s[i]] == t.text;
      if t.text == "." {
        ScanOperatorStep(s, i);
      } else {
        ScanSymbol(s, i);
      }
    } else if NumberLexeme(t.text) {
      DottedRunEnd(s, i, j, false);
      ScanNumberStep(s, i);
    } else {
      NameRunEnd(s, i, j);
      ScanIdentifierStep(s, i);
    }
  }

  /** A token list written out: each token's text, followed by a space where
      `spaced` says so. */
  function Render(ts: seq<Token>, spaced: seq<bool>): string
    requires |spaced| == |ts|
  {
    if ts == [] then "" else ts[0].text + (if spaced[0] then " " else "") + Render(ts[1..], spaced[1..])
  }

  /** Lexer tokens, each followed by a space or by a neighbour whose first
      character delimits it. */
  predicate Renderable(ts: seq<Token>, spaced: seq<bool>) {
    && |spaced| == |ts|
    && (forall k | 0 <= k < |ts| :: LexerToken(ts[k]))
    && (forall k | 0 <= k < |ts| - 1 :: spaced[k] || Delimits(ts[k], ts[k + 1].text[0]))
  }

  /** Dropping the first token of a written-out list. */
  lemma RenderableTail(ts: seq<Token>, spaced: seq<bool>)
    requires Renderable(ts, spaced) && ts != []
    ensures Renderable(ts[1..], spaced[1..])
  {
    assert forall k | 0 <= k < |ts| - 1 :: ts[1..][k] == ts[k + 1];
  }

  /** A written-out list starts with its first token's text and gap, and a
      non-empty rest starts with its first token's first character. */
  lemma RenderFront(ts: seq<Token>, spaced: seq<bool>)
    requires |spaced| == |ts| && ts != [] && (|ts| > 1 ==> |ts[1].text| > 0)
    ensures Render(ts, spaced)
         == ts[0].text + ((if spaced[0] then " " else "") + Render(ts[1..], spaced[1..]))
    ensures |ts| > 1 ==> |Render(ts[1..], spaced[1..])| > 0 && Render(ts[1..], spaced[1..])[0] == ts[1].text[0]
    ensures |ts| == 1 ==> Render(ts[1..], spaced[1..]) == ""
  {
  }

  /** Splitting the text from `i` on at the end of its first part. */
  lemma SuffixSplit(s: string, i: nat, a: string, b: string)
    requires i <= |s| && s[i..] == a + b
    ensures i + |a| <= |s| && s[i..i + |a|] == a && s[i + |a|..] == b
  {
    assert s[i..i + |a|] == s[i..][..|a|];
    assert s[i + |a|..] == s[i..][|a|..];
  }

  /** The first token of a written-out list, the character after it and
      where the rest of the list is written, read off the text. */
  lemma RenderedHead(s: string, i: nat, ts: seq<Token>, spaced: seq<bool>) returns (next: nat)
    requires |spaced| == |ts| && ts != [] && (|ts| > 1 ==> |ts[1].text| > 0)
    requires i <= |s| && s[i..] == Render(ts, spaced)
    ensures var j := i + |ts[0].text|;
      && j <= next <= |s| && s[i..j] == ts[0].text && s[next..] == Render(ts[1..], spaced[1..])
      && (spaced[0] ==> next == j + 1 && s[j] == ' ')
      && (!spaced[0] ==> next == j)
      && (!spaced[0] && |ts| > 1 ==> s[j] == ts[1].text[0])
      && (!spaced[0] && |ts| == 1 ==> j == |s|)
  {
    var gap := if spaced[0] then " " else "";
    var after := Render(ts[1..], spaced[1..]);
    var j := i + |ts[0].text|;
    next := j + |gap|;
    RenderFront(ts, spaced);
    SuffixSplit(s, i, ts[0].text, gap + after);
    SuffixSplit(s, j, gap, after);
    if spaced[0] {
      assert s[j] == s[j..j + 1][0];
    } else if |ts| > 1 {
      assert s[j] == s[j..][0];
    }
  }

  /** The first token of a written-out list is scanned as itself, and
      scanning goes on where the rest of the list is written. */
  lemma ScanRenderedHead(s: string, i: nat, ts: seq<Token>, spaced: seq<bool>) returns (next: nat)
    requires Renderable(ts, spaced) && ts != []
    requires i <= |s| && s[i..] == Render(ts, spaced)
    ensures next <= |s| && s[next..] == Render(ts[1..], spaced[1..])
    ensures Scan(s, i) == [ts[0]] + Scan(s, next)
  {
    next := RenderedHead(s, i, ts, spaced);
    var j := i + |ts[0].text|;
    assert j == |s| || Delimits(ts[0], s[j]) by {
      if !spaced[0] && |ts| > 1 {
        assert Delimits(ts[0], ts[1].text[0]);
      }
    }
    ScanLexeme(s, i, ts[0]);
    if spaced[0] {
      ScanSpace(s, j);
    }
  }

  lemma {:induction false} ScanRenderedFrom(s: string, i: nat, ts: seq<Token>, spaced: seq<bool>)
    requires Renderable(ts, spaced)
    requires i <= |s| && s[i..] == Render(ts, spaced)
    ensures Scan(s, i) == ts
    decreases |ts|
  {
    if ts == [] {
      assert |s[i..]| == 0 && i == |s|;
    } else {
      var next := ScanRenderedHead(s, i, ts, spaced);
      RenderableTail(ts, spaced);
      ScanRenderedFrom(s, next, ts[1..], spaced[1..]);
      assert ts == [ts[0]] + ts[1..];
    }
  }

  /** Lexing a written-out token list gives the list back. */
  lemma ScanRendered(ts: seq<Token>, spaced: seq<bool>)
    requires Renderable(ts, spaced)
    ensures Scan(Render(ts, spaced), 0) == ts
  {
    var s := Render(ts, spaced);
    assert s[0..] == s;
    ScanRenderedFrom(s, 0, ts, spaced);
  }

  // ---------------------------------------------------------------------
  // The cursor the parser uses, as functions on the pending tokens

  /** `peek`: the next token, or the sentinel once none is left. */
  function Lookahead(ts: seq<Token>): (t: Token)
    ensures ts == [] ==> t == EOF
    ensures ts != [] ==> t == ts[0]
  {
    if ts == [] then EOF else ts[0]
  }

  /** What is left after `next`; an empty list stays empty, and otherwise
      the token `peek` shows, put back in front, gives the list again. */
  function Advance(ts: seq<Token>): (rest: seq<Token>)
    ensures ts == [] ==> rest == []
    ensures ts != [] ==> ts == [Lookahead(ts)] + rest
  {
    if ts == [] then [] else ts[1..]
  }

  /** `Collections.reverse`: the last element first. */
  function Reversed<T>(s: seq<T>): (r: seq<T>)
    ensures |r| == |s|
    ensures forall k | 0 <= k < |s| :: r[k] == s[|s| - 1 - k]
  {
    if s == [] then [] else [s[|s| - 1]] + Reversed(s[..|s| - 1])
  }

  lemma ReversedTwice<T>(s: seq<T>)
    ensures Reversed(Reversed(s)) == s
  {
  }

  // ---------------------------------------------------------------------
  // The lexer object

  /** Moving a token from the pending scan onto the token list. */
  lemma AppendToken(done: seq<Token>, t: Token, rest: seq<Token>)
    ensures done + ([t] + rest) == (done + [t]) + rest
  {
  }

  class Lexer {
    /** The token list. After construction it is held reversed, so that the
        next token to deliver is the last element. */
    var tokens: seq<Token>

    /** The tokens still to be delivered, in input order. */
    ghost function Pending(): seq<Token>
      reads this
    {
      Reversed(tokens)
    }

    constructor (input: string)
      ensures Pending() == Scan(input, 0)
    {
      tokens := [];
      new;
      Tokenize(input);
      ReversedTwice(Scan(input, 0));
      tokens := Reversed(tokens);
    }

    /** Appends the tokens of `input`, scanning left to right. */
    method Tokenize(input: string)
      modifies this
      ensures tokens == old(tokens) + Scan(input, 0)
    {
      var position := 0;
      while position < |input|
        invariant 0 <= position <= |input|
        invariant old(tokens) + Scan(input, 0) == tokens + Scan(input, position)
        decreases |input| - position
      {
        var currentChar := input[position];
        ghost var before, start := tokens, position;
        if IsWhitespace(currentChar) {
          ScanSpace(input, position);
          position := position + 1;
          continue;
        }
        if StartsNumber(input, position) {
          ScanNumberStep(input, position);
          position := ConsumeNumber(input, position);
          AppendToken(before, Token(Atom, input[start..position]), Scan(input, position));
          continue;
        }
        if IsLetter(currentChar) {
          ScanIdentifierStep(input, position);
          position := ConsumeIdentifier(input, position);
          AppendToken(before, Token(Atom, input[start..position]), Scan(input, position));
          continue;
        }
        ScanOperatorStep(input, position);
        assert input[position..position + 1] == [currentChar];
        position := ConsumeOperator(currentChar, position);
        AppendToken(before, Token(Operator, [currentChar]), Scan(input, position));
      }
    }

    method ConsumeNumber(input: string, startPosition: nat) returns (position: nat)
      requires startPosition <= |input|
      modifies this
      ensures position == NumberEnd(input, startPosition, false)
      ensures tokens == old(tokens) + [Token(Atom, input[startPosition..position])]
    {
      var number: string := [];
      var hasDecimalPoint := false;
      position := startPosition;
      while position < |input|
        invariant startPosition <= position <= |input|
        invariant number == input[startPosition..position]
        invariant NumberEnd(input, position, hasDecimalPoint) == NumberEnd(input, startPosition, false)
        decreases |input| - position
      {
        var c := input[position];
        if IsDigit(c) {
          number := number + [c];
        } else if c == '.' && !hasDecimalPoint {
          hasDecimalPoint := true;
          number := number + ['.'];
        } else {
          break;
        }
        assert number == input[startPosition..position + 1];
        position := position + 1;
      }
      tokens := tokens + [Token(Atom, number)];
    }

    method ConsumeIdentifier(input: string, startPosition: nat) returns (position: nat)
      requires startPosition <= |input|
      modifies this
      ensures position == IdentifierEnd(input, startPosition)
      ensures tokens == old(tokens) + [Token(Atom, input[startPosition..position])]
    {
      var identifier: string := [];
      position := startPosition;
      while position < |input| && IsLetterOrDigit(input[position])
        invariant startPosition <= position <= |input|
        invariant identifier == input[startPosition..position]
        invariant IdentifierEnd(input, position) == IdentifierEnd(input, startPosition)
        decreases |input| - position
      {
        identifier := identifier + [input[position]];
        assert identifier == input[startPosition..position + 1];
        position := position + 1;
      }
      tokens := tokens + [Token(Atom, identifier)];
    }

    method ConsumeOperator(operatorChar: char, position: nat) returns (next: nat)
      modifies this
      ensures next == position + 1
      ensures tokens == old(tokens) + [Token(Operator, [operatorChar])]
    {
      tokens := tokens + [Token(Operator, [operatorChar])];
      next := position + 1;
    }

    /** Delivers the next token, or the sentinel once none is left. */
    method Next() returns (t: Token)
      modifies this
      ensures t == Lookahead(old(Pending()))
      ensures Pending() == Advance(old(Pending()))
    {
      if tokens == [] {
        t := EOF;
      } else {
        t := tokens[|tokens| - 1];
        tokens := tokens[..|tokens| - 1];
      }
    }

    /** The token `Next` would deliver, without consuming it. */
    method Peek() returns (t: Token)
      ensures t == Lookahead(Pending())
    {
      t := if tokens == [] then EOF else tokens[|tokens| - 1];
    }
  }
}
