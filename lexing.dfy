/**
  A pure reference definition of the Lox scanner: what one `scan_token` call does from
  a given start position and line (`ScanStep`), and what `scan_tokens` produces
  (`ScanFrom`, `Scan`). The imperative `Scanner` class is proved to compute exactly this.
 */
module Lexing {
  import opened Tokens

  /** A lexical error as handed to the error reporter: a line and a message. */
  datatype Error = Error(line: nat, message: string)

  const UnexpectedCharacter: string := "Unexpected character."
  const UnterminatedString: string := "Unterminated string."
  const UnterminatedBlockQuote: string := "Unterminated block quote"

  /** The effect of scanning one lexeme: where the cursor ends, the new line counter,
      and the tokens and errors it contributes. */
  datatype Step = Step(next: nat, line: nat, tokens: seq<Token>, errors: seq<Error>)

  /** What a whole scan yields: the tokens, the errors reported, and the final line counter. */
  datatype Output = Output(tokens: seq<Token>, errors: seq<Error>, line: nat)

  // ---------------------------------------------------------------------------
  // Character classes (the source is ASCII, see Scanner.Valid)

  predicate IsDigit(c: char) { '0' <= c <= '9' }
  predicate IsAlpha(c: char) { 'a' <= c <= 'z' || 'A' <= c <= 'Z' }
  predicate IsIdentifierChar(c: char) { IsAlpha(c) || IsDigit(c) || c == '_' }
  predicate NotNewline(c: char) { c != '\n' }
  predicate NotQuote(c: char) { c != '"' }

  predicate IsAscii(s: string) {
    forall k :: 0 <= k < |s| ==> s[k] < 128 as char
  }

  // ---------------------------------------------------------------------------
  // Lookahead

  /** The byte at `i`, or NUL past the end. */
  function Peek(s: string, i: nat): (c: char)
    ensures i < |s| ==> c == s[i]
    ensures i >= |s| ==> c == '\0'
  {
    if i >= |s| then '\0' else s[i]
  }

  /** The byte after `i`, or NUL when there is none: the bound is `i + 1 >= |s|`. */
  function PeekNext(s: string, i: nat): (c: char)
    ensures i + 1 < |s| ==> c == s[i + 1]
    ensures i + 1 >= |s| ==> c == '\0'
  {
    if i + 1 >= |s| then '\0' else s[i + 1]
  }

  /**
    `peek_next` with its guard as the source writes it, `i + 1 > |s|`. `None` stands for
    the out-of-bounds index panic that the guard lets through.
   */
  function PeekNextAsWritten(s: string, i: nat): (c: Option<char>)
    ensures c == None <==> i + 1 == |s|
    ensures c.Some? ==> c.value == PeekNext(s, i)
  {
    if i + 1 > |s| then Some('\0')
    else if i + 1 < |s| then Some(s[i + 1])
    else None
  }

  /** `match_token`: the byte at `i` exists and is `expected`. */
  predicate Matches(s: string, i: nat, expected: char) {
    i < |s| && s[i] == expected
  }

  /** A block comment closes at `k`: `*` followed by `/`. */
  predicate ClosesAt(s: string, k: nat) {
    Peek(s, k) == '*' && PeekNext(s, k) == '/'
  }

  /** A block comment opens at `k`: `/` followed by `*`. */
  predicate OpensBlock(s: string, k: nat) {
    k < |s| && s[k] == '/' && Matches(s, k + 1, '*')
  }

  // ---------------------------------------------------------------------------
  // Maximal runs

  /** The end of the maximal run of bytes satisfying `p` that starts at `i`. */
  function Span(s: string, i: nat, p: char -> bool): (j: nat)
    requires i <= |s|
    ensures i <= j <= |s|
    ensures forall k :: i <= k < j ==> p(s[k])
    ensures j == |s| || !p(s[j])
    decreases |s| - i
  {
    if i == |s| || !p(s[i]) then i else Span(s, i + 1, p)
  }

  // Where a block comment body starting at `i` ends: at the first star-slash, or at the end.
  function BlockEnd(s: string, i: nat): (j: nat)
    requires i <= |s|
    ensures i <= j <= |s|
    ensures forall k :: i <= k < j ==> !ClosesAt(s, k)
    ensures j < |s| ==> j + 1 < |s| && s[j] == '*' && s[j + 1] == '/'
    decreases |s| - i
  {
    if i == |s| || ClosesAt(s, i) then i else BlockEnd(s, i + 1)
  }

  /** The number of newline bytes in `s[i..j]`. */
  function Newlines(s: string, i: nat, j: nat): nat
    requires i <= j <= |s|
    decreases j
  {
    if j == i then 0 else Newlines(s, i, j - 1) + (if s[j - 1] == '\n' then 1 else 0)
  }

  // ---------------------------------------------------------------------------
  // One lexeme

  /** `add_token`: one token whose lexeme is `s[start..next]`, at the current line. */
  function Emit(s: string, start: nat, next: nat, line: nat, kind: TokenType, literal: Option<Literal>): Step
    requires start <= next <= |s|
  {
    Step(next, line, [Token(kind, s[start..next], line, literal)], [])
  }

  /** `!`, `=`, `<` or `>` at `start`: the two-character kind when `=` follows, else the one-character kind. */
  function OperatorStep(s: string, start: nat, line: nat, withEqual: TokenType, alone: TokenType): (r: Step)
    requires start < |s|
  {
    if Matches(s, start + 1, '=') then Emit(s, start, start + 2, line, withEqual, None)
    else Emit(s, start, start + 1, line, alone, None)
  }

  // `block_quote`, entered with the cursor at `from`, just after the opening slash-star.
  function BlockCommentStep(s: string, from: nat, line: nat): (r: Step)
    requires from <= |s|
  {
    var j := BlockEnd(s, from);
    if j == |s| then Step(|s|, line, [], [Error(line, UnterminatedBlockQuote)])
    else Step(j + 2, line, [], [])
  }

  /** `string`, for the opening quote at `start`. */
  function StringStep(s: string, start: nat, line: nat): (r: Step)
    requires start < |s|
  {
    var j := Span(s, start + 1, NotQuote);
    var endLine := line + Newlines(s, start + 1, j);
    if j == |s| then Step(|s|, endLine, [], [Error(endLine, UnterminatedString)])
    else Emit(s, start, j + 1, endLine, TokenType.String, Some(Literal.String(s[start + 1..j])))
  }

  /** `number`, for the first digit at `start`. */
  function NumberStep(s: string, start: nat, line: nat): (r: Step)
    requires start < |s|
  {
    var d := Span(s, start + 1, IsDigit);
    var e := if Peek(s, d) == '.' && IsDigit(PeekNext(s, d)) then Span(s, d + 1, IsDigit) else d;
    Emit(s, start, e, line, TokenType.Number, Some(Literal.Number(s[start..e])))
  }

  /** `identifier`, for the first letter or underscore at `start`. */
  function IdentifierStep(s: string, start: nat, line: nat): (r: Step)
    requires start < |s|
  {
    var j := Span(s, start + 1, IsIdentifierChar);
    Emit(s, start, j, line, KeywordKind(s[start..j]), None)
  }

  /** The `/` arm of `scan_token`: a line comment, a block comment, or a `Slash` token. */
  function SlashStep(s: string, start: nat, line: nat): (r: Step)
    requires start < |s|
  {
    var cur := start + 1;
    if Matches(s, cur, '/') then Step(Span(s, cur + 1, NotNewline), line, [], [])
    else if Matches(s, cur, '*') then BlockCommentStep(s, cur + 1, line)
    else Emit(s, start, cur, line, TokenType.Slash, None)
  }

  /** `scan_token`: scan the lexeme that starts at `start`. */
  function ScanStep(s: string, start: nat, line: nat): (r: Step)
    requires start < |s|
    ensures start < r.next <= |s|
    ensures line <= r.line
    ensures |r.tokens| <= 1 && |r.errors| <= 1
  {
    var cur := start + 1;
    match s[start]
    case '(' => Emit(s, start, cur, line, TokenType.LeftParen, None)
    case ')' => Emit(s, start, cur, line, TokenType.RightParen, None)
    case '{' => Emit(s, start, cur, line, TokenType.LeftBrace, None)
    case '}' => Emit(s, start, cur, line, TokenType.RightBrace, None)
    case ',' => Emit(s, start, cur, line, TokenType.Comma, None)
    case '.' => Emit(s, start, cur, line, TokenType.Dot, None)
    case '-' => Emit(s, start, cur, line, TokenType.Minus, None)
    case '+' => Emit(s, start, cur, line, TokenType.Plus, None)
    case ';' => Emit(s, start, cur, line, TokenType.SemiColon, None)
    case '*' => Emit(s, start, cur, line, TokenType.Star, None)
    case '!' => OperatorStep(s, start, line, TokenType.BangEqual, TokenType.Bang)
    case '=' => OperatorStep(s, start, line, TokenType.EqualEqual, TokenType.Equal)
    case '<' => OperatorStep(s, start, line, TokenType.LessEqual, TokenType.Less)
    case '>' => OperatorStep(s, start, line, TokenType.GreaterEqual, TokenType.Greater)
    case '/' => SlashStep(s, start, line)
    case ' ' => Step(cur, line, [], [])
    case '\r' => Step(cur, line, [], [])
    case '\t' => Step(cur, line, [], [])
    case '\n' => Step(cur, line + 1, [], [])
    case '"' => StringStep(s, start, line)
    case _ => OtherStep(s, start, line)
  }

  /** The last arm of `scan_token`: a number, an identifier, or an unexpected byte. */
  function OtherStep(s: string, start: nat, line: nat): (r: Step)
    requires start < |s|
  {
    var c := s[start];
    if IsDigit(c) then NumberStep(s, start, line)
    else if IsAlpha(c) || c == '_' then IdentifierStep(s, start, line)
    else Step(start + 1, line, [], [Error(line, UnexpectedCharacter)])
  }

  /** A step's tokens carry the line the step ends on, and none is the end-of-input token. */
  lemma StepTokens(s: string, start: nat, line: nat)
    requires start < |s|
    ensures var r := ScanStep(s, start, line);
      forall t <- r.tokens :: t.line == r.line && t.kind != Eof
  {
  }

  // ---------------------------------------------------------------------------
  // The whole scan

  /** The tokens, errors and final line of scanning `s` from `i` to the end. */
  function ScanFrom(s: string, i: nat, line: nat): (r: Output)
    requires i <= |s|
    ensures line <= r.line
    ensures forall t <- r.tokens :: t.kind != Eof && line <= t.line <= r.line
    decreases |s| - i
  {
    if i == |s| then Output([], [], line)
    else
      var step := ScanStep(s, i, line);
      StepTokens(s, i, line);
      var rest := ScanFrom(s, step.next, step.line);
      Output(step.tokens + rest.tokens, step.errors + rest.errors, rest.line)
  }

  /** `scan_tokens` on a fresh scanner: the scanned tokens followed by one end-of-input token. */
  function Scan(s: string, line: nat): (r: Output)
    ensures |r.tokens| >= 1 && r.tokens[|r.tokens| - 1] == Token(Eof, "", r.line, None)
    ensures forall k :: 0 <= k < |r.tokens| - 1 ==> r.tokens[k].kind != Eof
    ensures line <= r.line
  {
    var body := ScanFrom(s, 0, line);
    Output(body.tokens + [Token(Eof, "", body.line, None)], body.errors, body.line)
  }
}
