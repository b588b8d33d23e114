/**
  The Lox scanner as the source writes it, except for the corrected `peek_next` bound
  (see `Lexing.PeekNext`): an object with a byte buffer, three cursors
  (`start`, `current`, `line`), a growing token list and, in place of the global error
  reporter, an append-only error log. Every method is proved to have exactly the effect
  the reference lexer in module `Lexing` describes.
 */
module Scanner {
  import opened Tokens
  import opened Lexing

  class Scanner {
    const source: string
    const keywords: map<string, TokenType>
    var tokens: seq<Token>
    var start: nat
    var current: nat
    var line: nat
    var errors: seq<Error>

    /** The scanner's invariant: the cursors lie within the source, which is ASCII. */
    ghost predicate Valid()
      reads this
    {
      start <= current <= |source| && IsAscii(source) && keywords == Keywords
    }

    /** The effect of `r` has been applied on top of the given tokens and errors. */
    ghost predicate Took(r: Step, tokens0: seq<Token>, errors0: seq<Error>)
      reads this
    {
      current == r.next && line == r.line && tokens == tokens0 + r.tokens && errors == errors0 + r.errors
    }

    /** `Scanner::new`: a scanner at the start of `source`, with the line counter seeded by the caller. */
    constructor (source: string, line: nat)
      requires IsAscii(source)
      ensures Valid()
      ensures this.source == source && this.line == line
      ensures tokens == [] && errors == [] && start == 0 && current == 0
    {
      this.source := source;
      this.keywords := Keywords;
      this.line := line;
      tokens := [];
      errors := [];
      start := 0;
      current := 0;
    }

    /** `is_at_end`. */
    predicate IsAtEnd()
      reads this
    {
      current >= |source|
    }

    /** `peek`: the next unread byte, or NUL at the end. */
    function Peek(): char
      reads this
    {
      Lexing.Peek(source, current)
    }

    /** `peek_next`, with the bound corrected (see `Lexing.PeekNext`). */
    function PeekNext(): char
      reads this
    {
      Lexing.PeekNext(source, current)
    }

    /** `advance`: consume and return the next byte, or nothing at the end. */
    method Advance() returns (c: Option<char>)
      requires Valid()
      modifies this`current
      ensures Valid()
      ensures old(current) < |source| ==> c == Some(source[old(current)]) && current == old(current) + 1
      ensures old(current) >= |source| ==> c == None && current == old(current)
    {
      if current < |source| {
        c := Some(source[current]);
        current := current + 1;
      } else {
        c := None;
      }
    }

    /** `match_token`: consume the next byte exactly when it is `expected`. */
    method MatchToken(expected: char) returns (matched: bool)
      requires Valid()
      modifies this`current
      ensures Valid()
      ensures matched == Matches(source, old(current), expected)
      ensures current == if matched then old(current) + 1 else old(current)
    {
      if IsAtEnd() {
        return false;
      }
      if source[current] != expected {
        return false;
      }
      current := current + 1;
      return true;
    }

    /** `add_token`: append a token whose lexeme is the text from `start` to `current`. */
    method AddToken(kind: TokenType, literal: Option<Literal>)
      requires Valid()
      modifies this`tokens
      ensures tokens == old(tokens) + [Token(kind, source[start..current], line, literal)]
    {
      tokens := tokens + [Token(kind, source[start..current], line, literal)];
    }

    /** `make_error`: report an error to the log. */
    method MakeError(line: nat, message: string)
      modifies this`errors
      ensures errors == old(errors) + [Error(line, message)]
    {
      errors := errors + [Error(line, message)];
    }

    /** `scan_tokens`: scan to the end of the source, then append the end-of-input token. */
    method ScanTokens()
      requires Valid()
      modifies this
      ensures Valid() && current == |source|
      ensures var r := ScanFrom(source, old(current), old(line));
        && tokens == old(tokens) + r.tokens + [Token(Eof, "", r.line, None)]
        && errors == old(errors) + r.errors
        && line == r.line
    {
      ghost var total := ScanFrom(source, current, line);
      while !IsAtEnd()
        invariant Valid()
        invariant ScanFrom(source, current, line).line == total.line
        invariant tokens + ScanFrom(source, current, line).tokens == old(tokens) + total.tokens
        invariant errors + ScanFrom(source, current, line).errors == old(errors) + total.errors
        decreases |source| - current
      {
        start := current;
        ghost var tokens0, errors0, line0 := tokens, errors, line;
        ScanToken();
        ghost var step, rest := ScanStep(source, start, line0), ScanFrom(source, current, line);
        assert ScanFrom(source, start, line0) == Output(step.tokens + rest.tokens, step.errors + rest.errors, rest.line);
        ConcatAssoc(tokens0, step.tokens, rest.tokens);
        ConcatAssoc(errors0, step.errors, rest.errors);
      }
      tokens := tokens + [Token(Eof, "", line, None)];
    }

    /** `scan_token`: scan one lexeme starting at `start`. */
    method ScanToken()
      requires Valid() && start == current < |source|
      modifies this`current, this`line, this`tokens, this`errors
      ensures Valid()
      ensures Took(ScanStep(source, start, old(line)), old(tokens), old(errors))
    {
      var c := Advance();
      var ch := c.value;
      match ch
      case '(' => AddToken(TokenType.LeftParen, None);
      case ')' => AddToken(TokenType.RightParen, None);
      case '{' => AddToken(TokenType.LeftBrace, None);
      case '}' => AddToken(TokenType.RightBrace, None);
      case ',' => AddToken(TokenType.Comma, None);
      case '.' => AddToken(TokenType.Dot, None);
      case '-' => AddToken(TokenType.Minus, None);
      case '+' => AddToken(TokenType.Plus, None);
      case ';' => AddToken(TokenType.SemiColon, None);
      case '*' => AddToken(TokenType.Star, None);
      case '!' => Operator(TokenType.BangEqual, TokenType.Bang);
      case '=' => Operator(TokenType.EqualEqual, TokenType.Equal);
      case '<' => Operator(TokenType.LessEqual, TokenType.Less);
      case '>' => Operator(TokenType.GreaterEqual, TokenType.Greater);
      case '/' => Slash();
      case ' ' =>
      case '\r' =>
      case '\t' =>
      case '\n' =>
        line := line + 1;
      case '"' =>
        ScanString();
      case _ => ScanOther();
    }

    /** The last arm of `scan_token`: a number, an identifier, or an unexpected byte. */
    method ScanOther()
      requires Valid() && start + 1 == current <= |source|
      modifies this`current, this`tokens, this`errors
      ensures Valid()
      ensures Took(OtherStep(source, start, line), old(tokens), old(errors))
    {
      var ch := source[start];
      if IsDigit(ch) {
        ScanNumber();
      } else if IsAlpha(ch) || ch == '_' {
        ScanIdentifier();
      } else {
        MakeError(line, UnexpectedCharacter);
      }
    }

    /** The `!`, `=`, `<` and `>` arms of `scan_token`: one token, two bytes long when `=` follows. */
    method Operator(withEqual: TokenType, alone: TokenType)
      requires Valid() && start + 1 == current <= |source|
      modifies this`current, this`tokens
      ensures Valid()
      ensures Took(OperatorStep(source, start, line, withEqual, alone), old(tokens), errors)
    {
      var eq := MatchToken('=');
      if eq {
        AddToken(withEqual, None);
      } else {
        AddToken(alone, None);
      }
    }

    /** The `/` arm of `scan_token`: a line comment, a block comment, or a `Slash` token. */
    method Slash()
      requires Valid() && start + 1 == current <= |source|
      modifies this`current, this`tokens, this`errors
      ensures Valid()
      ensures Took(SlashStep(source, start, line), old(tokens), old(errors))
    {
      var slash := MatchToken('/');
      if slash {
        AdvanceWhile(NotNewline);
      } else {
        var star := MatchToken('*');
        if star {
          BlockQuote();
        } else {
          AddToken(TokenType.Slash, None);
        }
      }
    }

    /**
      The skipping loops of `scan_token` (`//` comments), `identifier` and `number`:
      advance while the next byte satisfies `p`, stopping at the end.
     */
    method AdvanceWhile(p: char -> bool)
      requires Valid()
      modifies this`current
      ensures Valid()
      ensures current == Span(source, old(current), p)
    {
      while p(Peek()) && !IsAtEnd()
        invariant Valid() && old(current) <= current
        invariant Span(source, current, p) == Span(source, old(current), p)
        decreases |source| - current
      {
        var _ := Advance();
      }
    }

    /** `block_quote`: skip to just past the closing star-slash, or report an unterminated comment. */
    method BlockQuote()
      requires Valid()
      modifies this`current, this`errors
      ensures Valid()
      ensures var r := BlockCommentStep(source, old(current), line);
        current == r.next && errors == old(errors) + r.errors
    {
      while !IsAtEnd() && !(Peek() == '*' && PeekNext() == '/')
        invariant Valid() && old(current) <= current
        modifies this`current
        invariant BlockEnd(source, current) == BlockEnd(source, old(current))
        decreases |source| - current
      {
        var _ := Advance();
      }
      if IsAtEnd() {
        MakeError(line, UnterminatedBlockQuote);
      }
      var _ := Advance();
      var _ := Advance();
    }

    /** `identifier`: the rest of an identifier or keyword whose first byte is consumed. */
    method ScanIdentifier()
      requires Valid() && start + 1 == current <= |source|
      modifies this`current, this`tokens
      ensures Valid()
      ensures Took(IdentifierStep(source, start, line), old(tokens), errors)
    {
      AdvanceWhile(IsIdentifierChar);
      var text := source[start..current];
      if text in keywords {
        AddToken(keywords[text], None);
      } else {
        AddToken(TokenType.Identifier, None);
      }
    }

    /** `number`: the rest of a number literal whose first digit is consumed. */
    method ScanNumber()
      requires Valid() && start + 1 == current <= |source|
      modifies this`current, this`tokens
      ensures Valid()
      ensures Took(NumberStep(source, start, line), old(tokens), errors)
    {
      AdvanceWhile(IsDigit);
      Fraction();
      AddToken(TokenType.Number, Some(Literal.Number(source[start..current])));
    }

    /** The optional fraction of `number`: `.` and a digit run, only when a digit follows the `.`. */
    method Fraction()
      requires Valid()
      modifies this`current
      ensures Valid()
      ensures var d := old(current);
        current == if Lexing.Peek(source, d) == '.' && IsDigit(Lexing.PeekNext(source, d)) then Span(source, d + 1, IsDigit) else d
    {
      if Peek() == '.' && IsDigit(PeekNext()) {
        var _ := Advance();
        AdvanceWhile(IsDigit);
      }
    }

    /** `string`: the rest of a string literal whose opening quote is consumed. */
    method ScanString()
      requires Valid() && start + 1 == current <= |source|
      modifies this`current, this`line, this`tokens, this`errors
      ensures Valid()
      ensures Took(StringStep(source, start, old(line)), old(tokens), old(errors))
    {
      StringBody();
      if IsAtEnd() {
        MakeError(line, UnterminatedString);
        return;
      }
      var _ := Advance();
      AddToken(TokenType.String, Some(Literal.String(source[start + 1..current - 1])));
    }

    /** The loop of `string`: advance to the closing quote, counting the newlines passed. */
    method StringBody()
      requires Valid()
      modifies this`current, this`line
      ensures Valid()
      ensures current == Span(source, old(current), NotQuote)
      ensures line == old(line) + Newlines(source, old(current), current)
    {
      while Peek() != '"' && !IsAtEnd()
        invariant Valid() && old(current) <= current
        invariant Span(source, current, NotQuote) == Span(source, old(current), NotQuote)
        invariant line == old(line) + Newlines(source, old(current), current)
        decreases |source| - current
      {
        if Peek() == '\n' {
          line := line + 1;
        }
        var _ := Advance();
      }
    }
  }

  lemma ConcatAssoc<T>(a: seq<T>, b: seq<T>, c: seq<T>)
    ensures (a + b) + c == a + (b + c)
  {
  }

  /** `Scanner::new` followed by `scan_tokens`: the tokens, errors and final line of a whole scan. */
  method ScanSource(source: string, line: nat) returns (out: Output)
    requires IsAscii(source)
    ensures out == Scan(source, line)
  {
    var scanner := new Scanner(source, line);
    scanner.ScanTokens();
    ghost var body := ScanFrom(source, 0, line);
    assert scanner.tokens == body.tokens + [Token(Eof, "", body.line, None)];
    assert scanner.errors == body.errors;
    out := Output(scanner.tokens, scanner.errors, scanner.line);
  }
}
