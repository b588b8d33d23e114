/**
  What the Lox scanner promises, proved about the reference lexer in module `Lexing`
  (and so, through the `Scanner` class's postconditions, about the class).
 */
module LexingProperties {
  import opened Tokens
  import opened Lexing

  // ---------------------------------------------------------------------------
  // Every lexeme

  /** A token's lexeme is exactly the text its step consumed. */
  lemma StepLexeme(s: string, i: nat, line: nat)
    requires i < |s|
    ensures var r := ScanStep(s, i, line);
      forall t <- r.tokens :: t.lexeme == s[i..r.next]
  {
    if s[i] == '"' {
      QuoteDispatch(s, i, line);
    } else if IsDigit(s[i]) {
      DigitDispatch(s, i, line);
    } else if IsAlpha(s[i]) || s[i] == '_' {
      WordDispatch(s, i, line);
    } else if s[i] == '/' {
      assert ScanStep(s, i, line) == SlashStep(s, i, line);
    } else if s[i] in {'!', '=', '<', '>'} {
      OperatorMunch(s, i, line);
    }
  }

  // ---------------------------------------------------------------------------
  // Operators and punctuation

  /** `!`, `=`, `<`, `>`: maximal munch with one byte of lookahead. */
  lemma OperatorMunch(s: string, i: nat, line: nat)
    requires i < |s| && s[i] in {'!', '=', '<', '>'}
    ensures var r := ScanStep(s, i, line);
      && var two := Matches(s, i + 1, '=');
      && r.next == (if two then i + 2 else i + 1)
      && r.line == line && r.errors == []
      && |r.tokens| == 1 && r.tokens[0].lexeme == s[i..r.next] && r.tokens[0].literal == None
      && (s[i] == '!' ==> r.tokens[0].kind == if two then TokenType.BangEqual else TokenType.Bang)
      && (s[i] == '=' ==> r.tokens[0].kind == if two then TokenType.EqualEqual else TokenType.Equal)
      && (s[i] == '<' ==> r.tokens[0].kind == if two then TokenType.LessEqual else TokenType.Less)
      && (s[i] == '>' ==> r.tokens[0].kind == if two then TokenType.GreaterEqual else TokenType.Greater)
  {
  }

  /** The ten one-byte punctuation tokens. */
  lemma Punctuation(s: string, i: nat, line: nat)
    requires i < |s| && s[i] in {'(', ')', '{', '}', ',', '.', '-', '+', ';', '*'}
    ensures var r := ScanStep(s, i, line);
      && r.next == i + 1 && r.line == line && r.errors == []
      && |r.tokens| == 1 && r.tokens[0].lexeme == s[i..i + 1] && r.tokens[0].literal == None
      && (s[i] == '(' ==> r.tokens[0].kind == TokenType.LeftParen)
      && (s[i] == ')' ==> r.tokens[0].kind == TokenType.RightParen)
      && (s[i] == '{' ==> r.tokens[0].kind == TokenType.LeftBrace)
      && (s[i] == '}' ==> r.tokens[0].kind == TokenType.RightBrace)
      && (s[i] == ',' ==> r.tokens[0].kind == TokenType.Comma)
      && (s[i] == '.' ==> r.tokens[0].kind == TokenType.Dot)
      && (s[i] == '-' ==> r.tokens[0].kind == TokenType.Minus)
      && (s[i] == '+' ==> r.tokens[0].kind == TokenType.Plus)
      && (s[i] == ';' ==> r.tokens[0].kind == TokenType.SemiColon)
      && (s[i] == '*' ==> r.tokens[0].kind == TokenType.Star)
  {
  }

  /** `/` followed by neither `/` nor `*` is a one-byte `Slash` token. */
  lemma LoneSlash(s: string, i: nat, line: nat)
    requires i < |s| && s[i] == '/' && !Matches(s, i + 1, '/') && !Matches(s, i + 1, '*')
    ensures ScanStep(s, i, line) == Step(i + 1, line, [Token(TokenType.Slash, "/", line, None)], [])
  {
    assert s[i..i + 1] == "/";
  }

  /** Space, carriage return and tab are skipped; a newline only bumps the line counter. */
  lemma Whitespace(s: string, i: nat, line: nat)
    requires i < |s| && s[i] in {' ', '\r', '\t', '\n'}
    ensures ScanStep(s, i, line) == Step(i + 1, if s[i] == '\n' then line + 1 else line, [], [])
  {
  }

  /** The bytes that start some lexeme or are skipped. */
  predicate Recognized(c: char) {
    c in {'(', ')', '{', '}', ',', '.', '-', '+', ';', '*', '!', '=', '<', '>', '/',
          ' ', '\r', '\t', '\n', '"'}
    || IsDigit(c) || IsAlpha(c) || c == '_'
  }

  /** Any other byte is reported once, emits nothing, and scanning resumes after it. */
  lemma UnexpectedByte(s: string, i: nat, line: nat)
    requires i < |s| && !Recognized(s[i])
    ensures ScanStep(s, i, line) == Step(i + 1, line, [], [Error(line, UnexpectedCharacter)])
  {
  }

  // ---------------------------------------------------------------------------
  // Comments

  /** A `//` comment emits nothing and stops in front of the newline (or at the end). */
  lemma LineComment(s: string, i: nat, line: nat)
    requires i < |s| && s[i] == '/' && Matches(s, i + 1, '/')
    ensures var r := ScanStep(s, i, line);
      && r.tokens == [] && r.errors == [] && r.line == line
      && i + 2 <= r.next <= |s|
      && (r.next == |s| || s[r.next] == '\n')
      && forall k :: i <= k < r.next ==> s[k] != '\n'
  {
  }

  /**
    A block comment emits nothing and does not move the line counter. It ends at the
    first star-slash after the opener (there is no nesting); without one it runs to the
    end and is reported exactly once, at the line where it began.
   */
  lemma BlockComment(s: string, i: nat, line: nat)
    requires OpensBlock(s, i)
    ensures var r := ScanStep(s, i, line);
      && r.tokens == [] && r.line == line
      && ((forall k :: i + 2 <= k < |s| ==> !ClosesAt(s, k)) <==> r.errors != [])
      && (r.errors != [] ==> r.errors == [Error(line, UnterminatedBlockQuote)] && r.next == |s|)
      && (r.errors == [] ==>
            && i + 4 <= r.next && s[r.next - 2] == '*' && s[r.next - 1] == '/'
            && forall k :: i + 2 <= k < r.next - 2 ==> !ClosesAt(s, k))
  {
    var j := BlockEnd(s, i + 2);
    if j < |s| {
      assert ClosesAt(s, j);
    }
  }

  // ---------------------------------------------------------------------------
  // Literals
  //
  // `scan_token` hands a quote to `string`, a digit to `number` and a letter or `_` to
  // `identifier`; the lexeme lemmas below are stated about those steps.

  /** A double quote starts a string literal. */
  lemma QuoteDispatch(s: string, i: nat, line: nat)
    requires i < |s| && s[i] == '"'
    ensures ScanStep(s, i, line) == StringStep(s, i, line)
  {
  }

  /** A digit starts a number literal. */
  lemma DigitDispatch(s: string, i: nat, line: nat)
    requires i < |s| && IsDigit(s[i])
    ensures ScanStep(s, i, line) == NumberStep(s, i, line)
  {
  }

  /** A letter or underscore starts an identifier. */
  lemma WordDispatch(s: string, i: nat, line: nat)
    requires i < |s| && (IsAlpha(s[i]) || s[i] == '_')
    ensures ScanStep(s, i, line) == IdentifierStep(s, i, line)
  {
  }

  /**
    A string literal: with a closing quote, one `String` token whose value is exactly the
    bytes strictly between the quotes, closing quote consumed, line counter moved past the
    embedded newlines; without one, exactly one error and no token.
   */
  lemma StringLiteral(s: string, i: nat, line: nat)
    requires i < |s|
    ensures var r := StringStep(s, i, line);
      && ((exists q :: i < q < |s| && s[q] == '"') <==> r.errors == [])
      && (r.errors == [] ==>
            var q := r.next - 1;
            && i < q && s[q] == '"' && (forall k :: i < k < q ==> s[k] != '"')
            && r.line == line + Newlines(s, i + 1, q)
            && r.tokens == [Token(TokenType.String, s[i..q + 1], r.line, Some(Literal.String(s[i + 1..q])))])
      && (r.errors != [] ==>
            && r.next == |s| && r.line == line + Newlines(s, i + 1, |s|)
            && r.tokens == [] && r.errors == [Error(r.line, UnterminatedString)])
  {
    var j := Span(s, i + 1, NotQuote);
    if j < |s| {
      assert s[j] == '"';
    } else {
      assert forall q :: i < q < |s| ==> NotQuote(s[q]);
    }
  }

  predicate AllDigits(t: string) {
    forall k :: 0 <= k < |t| ==> IsDigit(t[k])
  }

  /**
    A number literal: a maximal digit run, extended by `.` and a second maximal digit run
    only when a digit follows the `.`; otherwise the `.` is left for the next lexeme.
   */
  lemma NumberLiteral(s: string, i: nat, line: nat)
    requires i < |s| && IsDigit(s[i])
    ensures var r := NumberStep(s, i, line);
      && var d := Span(s, i, IsDigit);
      && var fraction := d + 1 < |s| && s[d] == '.' && IsDigit(s[d + 1]);
      && r.line == line && r.errors == []
      && r.tokens == [Token(TokenType.Number, s[i..r.next], line, Some(Literal.Number(s[i..r.next])))]
      && i < d && AllDigits(s[i..d])
      && (fraction ==> d + 1 < r.next && AllDigits(s[d + 1..r.next]))
      && (!fraction ==> r.next == d)
      && (r.next == |s| || !IsDigit(s[r.next]))
  {
    var d := Span(s, i + 1, IsDigit);
    assert Span(s, i, IsDigit) == d;
    NumberEnd(s, i, line);
    DigitRun(s, i, d);
    if d + 1 < |s| && s[d] == '.' && IsDigit(s[d + 1]) {
      DigitRun(s, d + 1, Span(s, d + 1, IsDigit));
    }
  }

  lemma DigitRun(s: string, a: nat, b: nat)
    requires a <= b <= |s|
    requires forall k :: a <= k < b ==> IsDigit(s[k])
    ensures AllDigits(s[a..b])
  {
  }

  /** Where a number lexeme ends: after the first digit run, or after the second one. */
  lemma NumberEnd(s: string, i: nat, line: nat)
    requires i < |s|
    ensures var d := Span(s, i + 1, IsDigit);
      && var fraction := d + 1 < |s| && s[d] == '.' && IsDigit(s[d + 1]);
      && NumberStep(s, i, line).next == if fraction then Span(s, d + 1, IsDigit) else d
  {
  }

  /**
    The corrected `peek_next` at work: a `.` that is the last byte of the source does not
    join the number before it, and scans on its own as a `Dot`.
   */
  lemma TrailingDotIsSeparate(s: string, i: nat, line: nat)
    requires i < |s| && IsDigit(s[i])
    requires Span(s, i, IsDigit) == |s| - 1 && s[|s| - 1] == '.'
    ensures NumberStep(s, i, line) == Step(|s| - 1, line, [Token(TokenType.Number, s[i..|s| - 1], line, Some(Literal.Number(s[i..|s| - 1])))], [])
  {
    assert Span(s, i + 1, IsDigit) == |s| - 1;
    NumberEnd(s, i, line);
  }

  /**
    An identifier is a maximal run of letters, digits and underscores; it gets a keyword
    kind exactly when it is one of the sixteen reserved words.
   */
  lemma IdentifierLiteral(s: string, i: nat, line: nat)
    requires i < |s| && (IsAlpha(s[i]) || s[i] == '_')
    ensures var r := IdentifierStep(s, i, line);
      && var text := s[i..r.next];
      && r.line == line && r.errors == []
      && (forall k :: i <= k < r.next ==> IsIdentifierChar(s[k]))
      && (r.next == |s| || !IsIdentifierChar(s[r.next]))
      && r.tokens == [Token(KeywordKind(text), text, line, None)]
      && (KeywordKind(text) != TokenType.Identifier <==> text in Keywords)
      && (text in Keywords ==> KeywordKind(text) == Keywords[text])
  {
  }

  // ---------------------------------------------------------------------------
  // Line counting

  lemma {:induction false} NewlinesSplit(s: string, i: nat, j: nat, k: nat)
    requires i <= j <= k <= |s|
    ensures Newlines(s, i, k) == Newlines(s, i, j) + Newlines(s, j, k)
    decreases k
  {
    if k > j {
      NewlinesSplit(s, i, j, k - 1);
    }
  }

  lemma {:induction false} NoNewlines(s: string, i: nat, j: nat)
    requires i <= j <= |s|
    requires forall k :: i <= k < j ==> s[k] != '\n'
    ensures Newlines(s, i, j) == 0
    decreases j
  {
    if j > i {
      NoNewlines(s, i, j - 1);
    }
  }

  /** A lexeme that is not a string, a newline or a block comment spans no newline. */
  lemma FlatStepSpansNoNewline(s: string, i: nat, line: nat)
    requires i < |s| && s[i] != '\n' && s[i] != '"' && !OpensBlock(s, i)
    ensures var r := ScanStep(s, i, line);
      r.line == line && forall k :: i <= k < r.next ==> s[k] != '\n'
  {
    var c := s[i];
    if c == '/' && Matches(s, i + 1, '/') {
      LineComment(s, i, line);
    } else if IsDigit(c) {
      DigitDispatch(s, i, line);
      NumberSpansNoNewline(s, i, line);
    } else if IsAlpha(c) || c == '_' {
      WordDispatch(s, i, line);
      IdentifierLiteral(s, i, line);
    } else if c in {'!', '=', '<', '>'} {
      OperatorMunch(s, i, line);
    } else {
      SingleByteStep(s, i, line);
    }
  }

  /** A number lexeme is digits and at most one `.`, so it spans no newline. */
  lemma NumberSpansNoNewline(s: string, i: nat, line: nat)
    requires i < |s|
    ensures var r := NumberStep(s, i, line);
      r.line == line && forall k :: i < k < r.next ==> s[k] != '\n'
  {
    var d := Span(s, i + 1, IsDigit);
    var r := NumberStep(s, i, line);
    if Peek(s, d) == '.' && IsDigit(PeekNext(s, d)) {
      assert r.next == Span(s, d + 1, IsDigit);
    } else {
      assert r.next == d;
    }
  }

  /** Every other lexeme that spans no newline is a single byte long. */
  lemma SingleByteStep(s: string, i: nat, line: nat)
    requires i < |s| && s[i] != '\n' && s[i] != '"' && !OpensBlock(s, i)
    requires !(s[i] == '/' && Matches(s, i + 1, '/'))
    requires !IsDigit(s[i]) && !IsAlpha(s[i]) && s[i] != '_' && s[i] !in {'!', '=', '<', '>'}
    ensures ScanStep(s, i, line).line == line && ScanStep(s, i, line).next == i + 1
  {
  }

  /** A string literal moves the line counter by exactly the newlines it spans. */
  lemma StringStepLines(s: string, i: nat, line: nat)
    requires i < |s| && s[i] == '"'
    ensures var r := ScanStep(s, i, line);
      r.line == line + Newlines(s, i, r.next)
  {
    QuoteDispatch(s, i, line);
    StringStepShape(s, i, line);
    QuotedNewlines(s, i);
  }

  /** The newlines of a string lexeme are those between its quotes. */
  lemma QuotedNewlines(s: string, i: nat)
    requires i < |s| && s[i] == '"'
    ensures var j := Span(s, i + 1, NotQuote);
      Newlines(s, i, if j == |s| then j else j + 1) == Newlines(s, i + 1, j)
  {
    var j := Span(s, i + 1, NotQuote);
    NewlinesOne(s, i);
    NewlinesSplit(s, i, i + 1, j);
    if j < |s| {
      NewlinesOne(s, j);
      NewlinesSplit(s, i, j, j + 1);
    }
  }

  /** Where a string lexeme ends, and the line it leaves the counter at. */
  lemma StringStepShape(s: string, i: nat, line: nat)
    requires i < |s|
    ensures var j := Span(s, i + 1, NotQuote);
      && var r := StringStep(s, i, line);
      && r.line == line + Newlines(s, i + 1, j)
      && r.next == (if j == |s| then j else j + 1)
  {
  }

  lemma NewlinesOne(s: string, k: nat)
    requires k < |s|
    ensures Newlines(s, k, k + 1) == if s[k] == '\n' then 1 else 0
  {
  }

  /**
    One lexeme moves the line counter by at most the newlines it spans, and by exactly
    that many unless it is a block comment (whose newlines are not counted).
   */
  lemma StepLines(s: string, i: nat, line: nat)
    requires i < |s|
    ensures var r := ScanStep(s, i, line);
      && r.line <= line + Newlines(s, i, r.next)
      && (!OpensBlock(s, i) ==> r.line == line + Newlines(s, i, r.next))
  {
    var r := ScanStep(s, i, line);
    if s[i] == '\n' {
      NewlinesOne(s, i);
    } else if s[i] == '"' {
      StringStepLines(s, i, line);
    } else if !OpensBlock(s, i) {
      FlatStepSpansNoNewline(s, i, line);
      NoNewlines(s, i, r.next);
    }
  }

  /** No block comment opens anywhere from `i` on. */
  predicate NoBlockComment(s: string, i: nat) {
    forall k :: i <= k < |s| ==> !OpensBlock(s, k)
  }

  /**
    The final line counter is the starting one plus at most the newlines in the rest of
    the source, and plus exactly those when no block comment opens.
   */
  lemma {:induction false} LinesCounted(s: string, i: nat, line: nat)
    requires i <= |s|
    ensures ScanFrom(s, i, line).line <= line + Newlines(s, i, |s|)
    ensures NoBlockComment(s, i) ==> ScanFrom(s, i, line).line == line + Newlines(s, i, |s|)
    decreases |s| - i
  {
    if i < |s| {
      var step := ScanStep(s, i, line);
      StepLines(s, i, line);
      LinesCounted(s, step.next, step.line);
      NewlinesSplit(s, i, step.next, |s|);
    }
  }

  // ---------------------------------------------------------------------------
  // Whole scans

  /**
    After the token loop, `scan_tokens` only appends the end-of-input token: the tokens
    before it, the errors and the final line are those of the loop, and a token is `Eof`
    exactly when it is the last one.
   */
  lemma EofExactlyOnceLast(s: string, line: nat)
    ensures var r := Scan(s, line);
      && var body := ScanFrom(s, 0, line);
      && |r.tokens| == |body.tokens| + 1
      && r.tokens[..|body.tokens|] == body.tokens
      && r.errors == body.errors && r.line == body.line
      && forall k :: 0 <= k < |r.tokens| ==> (r.tokens[k].kind == Eof <==> k == |r.tokens| - 1)
  {
    var r, body := Scan(s, line), ScanFrom(s, 0, line);
    assert r.tokens[..|body.tokens|] == body.tokens;
  }

  /**
    A run of digits ending the source in `.` scans as one number and a separate `Dot`:
    the lookahead past the final `.` is NUL, not a digit.
   */
  lemma ScanDigitsThenDot(s: string, line: nat)
    requires |s| >= 2 && s[|s| - 1] == '.'
    requires forall k :: 0 <= k < |s| - 1 ==> IsDigit(s[k])
    ensures Scan(s, line) == Output([
      Token(TokenType.Number, s[..|s| - 1], line, Some(Literal.Number(s[..|s| - 1]))),
      Token(TokenType.Dot, ".", line, None),
      Token(Eof, "", line, None)], [], line)
  {
    var n := |s| - 1;
    DigitsThenDotSteps(s, line);
    var number := ScanStep(s, 0, line);
    var dot := ScanStep(s, n, line);
    assert ScanFrom(s, n + 1, line) == Output([], [], line);
    assert ScanFrom(s, n, line) == Output(dot.tokens, [], line);
    assert ScanFrom(s, 0, line) == Output(number.tokens + dot.tokens, [], line);
  }

  /** The two lexemes of a digit run ending the source in `.`. */
  lemma DigitsThenDotSteps(s: string, line: nat)
    requires |s| >= 2 && s[|s| - 1] == '.'
    requires forall k :: 0 <= k < |s| - 1 ==> IsDigit(s[k])
    ensures ScanStep(s, 0, line) == Step(|s| - 1, line, [Token(TokenType.Number, s[..|s| - 1], line, Some(Literal.Number(s[..|s| - 1])))], [])
    ensures ScanStep(s, |s| - 1, line) == Step(|s|, line, [Token(TokenType.Dot, ".", line, None)], [])
  {
    var n := |s| - 1;
    assert Span(s, 0, IsDigit) == n;
    DigitDispatch(s, 0, line);
    TrailingDotIsSeparate(s, 0, line);
    Punctuation(s, n, line);
    assert s[n..n + 1] == ".";
  }

  /** `1.` scans as the number `1` followed by a separate `.`. */
  lemma ScanOneDot()
    ensures Scan("1.", 1).tokens == [
      Token(TokenType.Number, "1", 1, Some(Literal.Number("1"))),
      Token(TokenType.Dot, ".", 1, None),
      Token(Eof, "", 1, None)]
  {
    ScanDigitsThenDot("1.", 1);
    assert "1."[..1] == "1";
  }

  /** A block comment over two lines emits nothing and leaves the line counter where it was. */
  lemma ScanTwoLineBlockComment()
    ensures Scan("/* a\nb */", 1) == Output([Token(Eof, "", 1, None)], [], 1)
  {
    var s := "/* a\nb */";
    assert BlockEnd(s, 2) == 7 by {
      assert ClosesAt(s, 7);
      assert forall k :: 2 <= k < 7 ==> !ClosesAt(s, k);
      BlockEndAt(s, 2, 7);
    }
    assert ScanStep(s, 0, 1) == Step(9, 1, [], []);
    assert ScanFrom(s, 9, 1) == Output([], [], 1);
  }

  /** `BlockEnd` finds the first close. */
  lemma {:induction false} BlockEndAt(s: string, i: nat, j: nat)
    requires i <= j < |s| && ClosesAt(s, j)
    requires forall k :: i <= k < j ==> !ClosesAt(s, k)
    ensures BlockEnd(s, i) == j
    decreases j - i
  {
    if i < j {
      BlockEndAt(s, i + 1, j);
    }
  }

  /** A string with no closing quote is reported once and contributes no token. */
  lemma ScanUnterminatedString()
    ensures Scan("\"abc", 1) == Output([Token(Eof, "", 1, None)], [Error(1, UnterminatedString)], 1)
  {
    var s := "\"abc";
    assert Span(s, 1, NotQuote) == 4;
    assert Newlines(s, 1, 4) == 0;
    assert ScanStep(s, 0, 1) == Step(4, 1, [], [Error(1, UnterminatedString)]);
    assert ScanFrom(s, 4, 1) == Output([], [], 1);
  }

  // ---------------------------------------------------------------------------
  // `peek_next` as written

  /**
    With the guard as written, scanning `1.` reaches `peek_next` with the cursor on the
    final `.`: the guard lets the index one past the end through, and the lookup panics.
   */
  lemma PeekNextAsWrittenPanicsOnTrailingDot()
    ensures var s := "1.";
      && var d := Span(s, 1, IsDigit);
      && d == 1 && Peek(s, d) == '.'
      && PeekNextAsWritten(s, d) == None
  {
  }

  /**
    Likewise in a block comment whose last byte is `*`: the loop of `block_quote` reaches
    the final `*` and asks for the byte after it.
   */
  lemma PeekNextAsWrittenPanicsInBlockComment()
    ensures var s := "/* *";
      && OpensBlock(s, 0)
      && !ClosesAt(s, 2) && Peek(s, 3) == '*'
      && PeekNextAsWritten(s, 3) == None
  {
  }
}
