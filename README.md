# rlox scanner and expression printer, in Dafny

This project models the front end of `rlox`, a Rust implementation of the Lox language. It covers two parts.

- **The scanner** (`src/scanner.rs`). A `Scanner` object holds the source bytes, the
  cursors `start`, `current` and `line`, a growing token list and a keyword table. It
  turns the source into tokens one lexeme at a time:
  - one-character punctuation;
  - `!`, `=`, `<` and `>` with an optional `=`;
  - `//` line comments and non-nesting `/* */` block comments;
  - string, number and identifier/keyword literals;
  - whitespace and newlines.

  Unexpected bytes, unterminated strings and unterminated block comments are reported
  without stopping the scan.
- **The expression tree and its printer** (`src/expression.rs`). The node shapes are
  `Binary`, `Grouping`, `Literal` and `Unary`. `accept` dispatches each node to the
  `AstPrinter` visitor, which renders the tree fully parenthesised.

Files:

- `token.dfy` (module `Tokens`): token kinds, literal values, tokens and the keyword
  table that `Scanner::new` builds.
- `lexing.dfy` (module `Lexing`): a pure reference lexer. `ScanStep` is what one
  `scan_token` call does from a position and line. `ScanFrom` and `Scan` are what
  `scan_tokens` produces.
- `scanner.dfy` (module `Scanner`): the `Scanner` class, as the source writes it, except the
  `peek_next` guard, which is corrected (see Findings).
  - Its fields are updated in place by `Advance`, `MatchToken`, `AddToken` and the
    scanning loops.
  - The global error reporter becomes an append-only `errors` log field.
  - Every method is proved to have exactly the effect the matching `Lexing` function
    describes. `ScanTokens` is proved equal to `Lexing.ScanFrom` followed by the
    end-of-input token.
- `lexing_properties.dfy` (module `LexingProperties`): the scanner's promises, proved
  about the reference lexer, and therefore about the class. They cover:
  - maximal munch;
  - comments;
  - string, number and identifier lexemes;
  - error reports;
  - line counting;
  - the single trailing `Eof`;
  - the `peek_next` finding below.
- `expression.dfy` (module `Expression`): one inductive `Expr` datatype, with the
  printer's `Accept`/`Visit*`/`Parenthesize*` as mutually recursive functions. The
  lemmas cover:
  - the rendering of each shape;
  - the redundancy of the `"group"` branch;
  - balanced parentheses;
  - the example tree of `create`.

The source is treated as ASCII: the `Scanner` constructor requires it, so one byte is one
`char`. Printing is deterministic because it is a Dafny function. It terminates because
every recursive call is on a sub-tree, measured by `Expression.Size`.

Newlines inside a block comment are not counted. `block_quote` (`src/scanner.rs:161-172`)
skips them without touching the line counter, unlike strings (`src/scanner.rs:230-232`).
The model follows the code here:
- `LexingProperties.BlockComment` states that a block comment leaves the line counter
  unchanged;
- `LexingProperties.ScanTwoLineBlockComment` shows it on a two-line comment;
- `LexingProperties.LinesCounted` states the consequence for a whole scan.

## Model

| member | source | states |
|---|---|---|
| Tokens.KeywordKind | src/scanner.rs:20-36 | the kind is a keyword kind exactly when the text is one of the sixteen reserved words, and then it is the kind whose spelling is that text; otherwise `Identifier` |
| Tokens.KeywordTableRoundTrip | src/scanner.rs:20-36 | every keyword kind is in the table under its reserved word and is looked up back to itself: the table is a bijection between the sixteen words and the sixteen kinds |
| Lexing.Peek | src/scanner.rs:250-255 | the byte at the cursor, or NUL at or past the end |
| Lexing.PeekNext | src/scanner.rs:221-226 | the byte after the cursor, or NUL when there is none (corrected bound, see Findings) |
| Lexing.PeekNextAsWritten | src/scanner.rs:221-226 | with the guard as written, the lookup goes out of bounds exactly when the cursor is on the last byte; otherwise it agrees with `PeekNext` |
| Lexing.Span | src/scanner.rs:129-131 | the end of the maximal run satisfying `p` from `i`: every byte before it satisfies `p`, and it is the end or a byte that fails `p` (the skipping loops of line comments, identifiers, numbers and strings) |
| Lexing.BlockEnd | src/scanner.rs:161-165 | the first star-slash at or after `i`, or the end when there is none |
| Lexing.Matches | src/scanner.rs:266-276 | no ensures of its own: the test of `match_token`; `Scanner.Scanner.MatchToken` is proved to return it |
| Lexing.ClosesAt | src/scanner.rs:162 | no ensures of its own: the loop guard of `block_quote`; `Lexing.BlockEnd` states where it first holds |
| Lexing.Emit | src/scanner.rs:289-297 | no ensures of its own: `add_token`; `LexingProperties.StepLexeme` states that every lexeme is the consumed text, and `Lexing.StepTokens` that it carries the current line |
| Lexing.OperatorStep | src/scanner.rs:99-126 | no ensures of its own; its behaviour is stated by `LexingProperties.OperatorMunch` |
| Lexing.SlashStep | src/scanner.rs:127-137 | no ensures of its own; its behaviour is stated by `LexingProperties.LoneSlash`, `LexingProperties.LineComment` and `LexingProperties.BlockComment` |
| Lexing.BlockCommentStep | src/scanner.rs:161-172 | no ensures of its own; its behaviour is stated by `LexingProperties.BlockComment` |
| Lexing.StringStep | src/scanner.rs:228-248 | no ensures of its own; its behaviour is stated by `LexingProperties.StringLiteral` and `LexingProperties.StringStepShape` |
| Lexing.NumberStep | src/scanner.rs:195-219 | no ensures of its own; its behaviour is stated by `LexingProperties.NumberLiteral` and `LexingProperties.NumberEnd` |
| Lexing.IdentifierStep | src/scanner.rs:178-194 | no ensures of its own; its behaviour is stated by `LexingProperties.IdentifierLiteral` |
| Lexing.OtherStep | src/scanner.rs:143-151 | no ensures of its own; its behaviour is stated by `LexingProperties.DigitDispatch`, `LexingProperties.WordDispatch` and `LexingProperties.UnexpectedByte` |
| Lexing.ScanStep | src/scanner.rs:64-154 | one lexeme consumes at least one byte and stays in the source, never lowers the line counter, and emits at most one token and at most one error |
| Lexing.StepTokens | src/scanner.rs:289-297 | every token of one lexeme carries the line the lexeme ends on, and none is `Eof` |
| Lexing.ScanFrom | src/scanner.rs:48-52 | scanning to the end never lowers the line counter; no scanned token is `Eof`, and each lies between the starting and the final line |
| Lexing.Scan | src/scanner.rs:48-59 | the output ends with exactly one `Eof` token, with empty lexeme, no literal and the final line; no earlier token is `Eof` |
| Scanner.Scanner.constructor | src/scanner.rs:18-46 | a scanner over an ASCII source with empty token and error lists, both cursors at 0, the caller's line and the keyword table |
| Scanner.Scanner.Advance | src/scanner.rs:283-287 | before the end: returns the byte at the cursor and moves the cursor one byte forward; at the end: returns nothing and does not move |
| Scanner.Scanner.MatchToken | src/scanner.rs:266-276 | returns true exactly when a byte remains and it is `expected`; the cursor moves by one exactly then and is otherwise unchanged |
| Scanner.Scanner.AddToken | src/scanner.rs:289-297 | appends one token whose lexeme is the text from `start` to `current`, at the current line; earlier tokens are kept in order |
| Scanner.Scanner.MakeError | src/scanner.rs:155-159 | appends one error with the given line and message to the log |
| Scanner.Scanner.ScanTokens | src/scanner.rs:48-59 | the scan stops at the end of the source; the new tokens, errors and line are exactly those of `Lexing.ScanFrom` from the old cursor, followed by one `Eof` token at the final line; old tokens and errors are kept |
| Scanner.Scanner.ScanToken | src/scanner.rs:64-154 | one call has exactly the effect of `Lexing.ScanStep` on the cursor, line, tokens and errors |
| Scanner.Scanner.ScanOther | src/scanner.rs:143-151 | the last arm of `scan_token` has exactly the effect of `Lexing.OtherStep`: a number, an identifier, or one "Unexpected character." error |
| Scanner.Scanner.Operator | src/scanner.rs:99-126 | the `!`, `=`, `<`, `>` arms have exactly the effect of `Lexing.OperatorStep` |
| Scanner.Scanner.Slash | src/scanner.rs:127-137 | the `/` arm has exactly the effect of `Lexing.SlashStep` |
| Scanner.Scanner.AdvanceWhile | src/scanner.rs:129-131 | the cursor ends at `Lexing.Span` of its old position |
| Scanner.Scanner.BlockQuote | src/scanner.rs:161-172 | the cursor and the error log end as `Lexing.BlockCommentStep` says: past the first star-slash, or at the end with one "Unterminated block quote" error |
| Scanner.Scanner.ScanIdentifier | src/scanner.rs:178-194 | exactly the effect of `Lexing.IdentifierStep` |
| Scanner.Scanner.ScanNumber | src/scanner.rs:195-219 | exactly the effect of `Lexing.NumberStep` |
| Scanner.Scanner.Fraction | src/scanner.rs:200-206 | the cursor moves past `.` and a second digit run exactly when a `.` followed by a digit is next; otherwise it stays |
| Scanner.Scanner.ScanString | src/scanner.rs:228-248 | exactly the effect of `Lexing.StringStep` |
| Scanner.Scanner.StringBody | src/scanner.rs:229-234 | the cursor ends at the first quote or the end, and the line counter has grown by the newlines passed |
| Scanner.ScanSource | src/scanner.rs:18-59 | a fresh scanner followed by `scan_tokens` yields exactly `Lexing.Scan` |
| LexingProperties.StepLexeme | src/scanner.rs:289-297 | the lexeme of every token is exactly the text its lexeme step consumed |
| LexingProperties.Punctuation | src/scanner.rs:68-97 | each of the ten one-byte punctuation marks gives one one-byte token of its own kind, no literal, no error and no line change |
| LexingProperties.OperatorMunch | src/scanner.rs:99-126 | `!`, `=`, `<`, `>` followed by `=` give one two-byte token (`BangEqual`, `EqualEqual`, `LessEqual`, `GreaterEqual`), otherwise one one-byte token (`Bang`, `Equal`, `Less`, `Greater`); no error, no line change |
| LexingProperties.LoneSlash | src/scanner.rs:127-137 | `/` followed by neither `/` nor `*` is a one-byte `Slash` token |
| LexingProperties.Whitespace | src/scanner.rs:138-141 | space, `\r` and `\t` are skipped; a newline emits nothing and increments the line by exactly one |
| LexingProperties.UnexpectedByte | src/scanner.rs:143-150 | any other byte is reported once as "Unexpected character." at the current line, emits no token, and scanning resumes after it |
| LexingProperties.LineComment | src/scanner.rs:128-131 | a `//` comment emits nothing, reports nothing, leaves the line counter, contains no newline and stops in front of the newline or at the end |
| LexingProperties.BlockComment | src/scanner.rs:132-133 | a block comment emits nothing and leaves the line counter; it is reported exactly when no star-slash follows the opener (once, at the current line, running to the end); otherwise it ends just past the first star-slash |
| LexingProperties.QuoteDispatch | src/scanner.rs:142 | a double quote is scanned by `Lexing.StringStep` |
| LexingProperties.DigitDispatch | src/scanner.rs:144-145 | a digit is scanned by `Lexing.NumberStep` |
| LexingProperties.WordDispatch | src/scanner.rs:146-147 | a letter or `_` is scanned by `Lexing.IdentifierStep` |
| LexingProperties.StringLiteral | src/scanner.rs:228-248 | a string lexeme (`Lexing.StringStep`) has no error exactly when a closing quote exists; then one `String` token whose literal is exactly the bytes between the quotes, at the line after its embedded newlines; otherwise exactly one "Unterminated string." error and no token |
| LexingProperties.NumberLiteral | src/scanner.rs:195-206 | a number lexeme (`Lexing.NumberStep`) is a maximal digit run, extended by `.` and a second maximal digit run exactly when a digit follows the `.`; the next byte is not a digit; one `Number` token whose literal is its text, no error |
| LexingProperties.NumberEnd | src/scanner.rs:196-206 | a number lexeme ends after the second digit run when a `.` and a digit follow the first, and after the first otherwise |
| LexingProperties.TrailingDotIsSeparate | src/scanner.rs:200-206 | with the corrected `peek_next`, a number lexeme followed by a `.` that ends the source stops before the `.` |
| LexingProperties.ScanDigitsThenDot | src/scanner.rs:195-206 | a run of digits ending the source in `.` scans as one `Number` token, a `Dot` token and `Eof`, with no error |
| LexingProperties.DigitsThenDotSteps | src/scanner.rs:195-206 | the two lexeme steps of such a source: the digits as one `Number`, then the `.` as `Dot` |
| LexingProperties.IdentifierLiteral | src/scanner.rs:178-194 | an identifier lexeme (`Lexing.IdentifierStep`) is a maximal run of letters, digits and `_`; its kind is the keyword kind exactly when it is a reserved word, else `Identifier` |
| LexingProperties.FlatStepSpansNoNewline | src/scanner.rs:64-154 | a lexeme that is not a string, a newline or a block comment spans no newline and leaves the line counter |
| LexingProperties.StringStepLines | src/scanner.rs:229-233 | a string lexeme moves the line counter by exactly the newlines it spans |
| LexingProperties.NumberSpansNoNewline | src/scanner.rs:195-206 | a number lexeme spans no newline |
| LexingProperties.QuotedNewlines | src/scanner.rs:229-233 | the newlines a string lexeme spans are those between its quotes |
| LexingProperties.StringStepShape | src/scanner.rs:228-248 | a string lexeme ends just past the closing quote, or at the end without one, and leaves the line counter moved by the newlines before that quote or end |
| LexingProperties.StepLines | src/scanner.rs:64-154 | one lexeme moves the line counter by at most the newlines it spans, and by exactly those unless it is a block comment |
| LexingProperties.LinesCounted | src/scanner.rs:48-52 | a scan's final line is at most the starting line plus the newlines in the rest of the source, and exactly that when no block comment opens |
| LexingProperties.EofExactlyOnceLast | src/scanner.rs:48-59 | `scan_tokens` only appends the end-of-input token to what the loop produced: the tokens before it, the errors and the final line are the loop's, and a token is `Eof` exactly when it is the last one |
| LexingProperties.ScanOneDot | src/scanner.rs:195-206 | `1.` scans as the number `1`, then `Dot`, then `Eof` |
| LexingProperties.ScanTwoLineBlockComment | src/scanner.rs:161-172 | a two-line block comment yields only `Eof`, no error, and line 1 |
| LexingProperties.ScanUnterminatedString | src/scanner.rs:236-239 | `"abc` yields only `Eof` and one "Unterminated string." error |
| LexingProperties.PeekNextAsWrittenPanicsOnTrailingDot | src/scanner.rs:200 | with the guard as written, scanning `1.` asks for the byte past the end |
| LexingProperties.PeekNextAsWrittenPanicsInBlockComment | src/scanner.rs:162 | with the guard as written, the block-comment loop over `/* *` asks for the byte past the end |
| Expression.Print | src/expression.rs:112-116 | the rendering of any non-literal node is enclosed in parentheses |
| Expression.Accept | src/expression.rs:22-26 | each node shape is dispatched to exactly the printer's handler for that shape (also lines 38-42, 53-57, 71-75) |
| Expression.VisitBinary | src/expression.rs:86-92 | a binary node renders enclosed in parentheses |
| Expression.VisitGrouping | src/expression.rs:94-96 | a grouping renders enclosed in parentheses |
| Expression.VisitUnary | src/expression.rs:107-109 | a unary node renders enclosed in parentheses |
| Expression.VisitLiteral | src/expression.rs:98-106 | no ensures of its own; its rendering is stated by `Expression.PrintLiteral` |
| Expression.LiteralText | src/expression.rs:98-106 | no ensures of its own; the text of each literal value, stated by `Expression.PrintLiteral` |
| Expression.ParenthesizeSingle | src/expression.rs:118-127 | the result starts with `(` and ends with `)` |
| Expression.ParenthesizeDouble | src/expression.rs:129-137 | the result starts with `(` and ends with `)` |
| Expression.PrintBinary | src/expression.rs:86-92 | a binary node prints as `(`, left, space, operator lexeme, space, right, `)` |
| Expression.PrintGrouping | src/expression.rs:94-96 | a grouping prints as `(group `, its inner expression, `)` |
| Expression.PrintUnary | src/expression.rs:107-109 | a unary node prints as `(`, operator lexeme, space, operand, `)`, whatever the lexeme |
| Expression.GroupBranchRedundant | src/expression.rs:118-127 | the special `"group"` branch yields the same text as the general format |
| Expression.PrintLiteral | src/expression.rs:98-106 | `nil`, `false`, `true`, and a string or number by its text, unquoted |
| Expression.CountAppend | src/expression.rs:118-137 | the occurrences of a character in a concatenation are the sum of those in its parts |
| Expression.BinaryCount | src/expression.rs:86-92 | a binary node adds one of each parenthesis to those of its operands, when its operator holds none |
| Expression.GroupingCount | src/expression.rs:94-96 | a grouping adds one of each parenthesis to those of its inner expression |
| Expression.UnaryCount | src/expression.rs:107-109 | a unary node adds one of each parenthesis to those of its operand, when its operator holds none |
| Expression.PrintBalanced | src/expression.rs:112-137 | when no leaf text holds a parenthesis, the rendering holds exactly one `(` and one `)` per non-literal node |
| Expression.Create | src/expression.rs:140-151 | the example tree renders as `((- 10.1) * (group 10.33))` |
| Expression.PrintExampleOperands | src/expression.rs:140-151 | the example's operands render as `(- 10.1)` and `(group 10.33)` |

## Left out

- `src/main.rs` and `src/lib.rs` are not part of this model. They hold the REPL, file reading, stdin/stdout and exit codes.
- The global reporter `GLOBAL_LOX.error` (`src/scanner.rs:155-159`) is replaced by the scanner's append-only `errors` log. The shared `had_error` flag and the printing of messages are not modelled.
- Number literals keep the text of their lexeme. The `f64` parse (`src/scanner.rs:208-217`) and `number.to_string()` (`src/expression.rs:103`) are floating point and are not modelled, so `Expression.LiteralText` renders a number by its lexeme text.
- The `String::from_utf8` failure paths with `process::exit` cannot occur on ASCII input, which the constructor requires.
- Non-ASCII bytes and Unicode `is_alphabetic`/`is_alphanumeric` are excluded by the same precondition. On ASCII these are `IsAlpha` and `IsIdentifierChar`.
- `Scanner.Scanner.constructor`: requires an ASCII source, which the Rust constructor does not demand.
- `Tokens.Literal` values `True`, `False` and `Nil` exist, but the scanner never produces them. Keywords get no literal, as in the code.
- The generic `Visitor<T>` trait is represented by its only implementation, `AstPrinter`. `Accept` dispatches to the printer's handlers directly.
- The per-shape generic node types (`Binary<T, V>` and the others) become one inductive datatype. The `new` constructors are its constructors.
- `Scanner.Scanner.Peek`, `Scanner.Scanner.PeekNext` and `Scanner.Scanner.IsAtEnd` are read-only views of `Lexing.Peek`, `Lexing.PeekNext` and the end test. Their contracts are stated on the `Lexing` functions.

## Findings

| source | as written | input that shows it | evidently intended | confidence | as-written member | corrected member |
|---|---|---|---|---|---|---|
| src/scanner.rs:222 | `peek_next` returns NUL only when `current + 1 > len`, then reads `source[current + 1]`, which is out of bounds when `current + 1 == len` | `1.` (a number followed by a final `.`), or `/* *` (an unterminated block comment ending in `*`) | the guard `current + 1 >= len`, so the lookahead past the end is NUL and `1.` scans as `1` then `Dot` | not executed | Lexing.PeekNextAsWritten, LexingProperties.PeekNextAsWrittenPanicsOnTrailingDot, LexingProperties.PeekNextAsWrittenPanicsInBlockComment | Lexing.PeekNext, LexingProperties.TrailingDotIsSeparate, LexingProperties.ScanDigitsThenDot, LexingProperties.ScanOneDot |
