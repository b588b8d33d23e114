/**
  The token model of the Lox scanner: token kinds, literal values, tokens, and the
  keyword table that `Scanner::new` builds.
 */
module Tokens {

  datatype Option<+T> = None | Some(value: T)

  /** The closed set of token kinds. */
  datatype TokenType =
    // single-character punctuation
    | LeftParen | RightParen | LeftBrace | RightBrace
    | Comma | Dot | Minus | Plus | SemiColon | Slash | Star
    // one- or two-character operators
    | Bang | BangEqual | Equal | EqualEqual
    | Greater | GreaterEqual | Less | LessEqual
    // literal kinds
    | Identifier | String | Number
    // keywords
    | And | Class | Else | False | Fun | For | If | Nil | Or
    | Print | Return | Super | This | True | Var | While
    // end of input
    | Eof

  /**
    A literal value. A number is kept as the text of its lexeme: the conversion
    to a 64-bit float is not part of this model.
   */
  datatype Literal =
    | Nil
    | True
    | False
    | Number(text: string)
    | String(text: string)

  /** A token: its kind, the exact source text it was scanned from, its line, and its literal. */
  datatype Token = Token(kind: TokenType, lexeme: string, line: nat, literal: Option<Literal>)

  /** The sixteen reserved words and the kinds `Scanner::new` maps them to. */
  const Keywords: map<string, TokenType> := map[
    "and" := TokenType.And,
    "class" := TokenType.Class,
    "else" := TokenType.Else,
    "false" := TokenType.False,
    "for" := TokenType.For,
    "fun" := TokenType.Fun,
    "if" := TokenType.If,
    "nil" := TokenType.Nil,
    "or" := TokenType.Or,
    "print" := TokenType.Print,
    "return" := TokenType.Return,
    "super" := TokenType.Super,
    "this" := TokenType.This,
    "true" := TokenType.True,
    "var" := TokenType.Var,
    "while" := TokenType.While
  ]

  /** The keyword kinds: the values of the keyword table. */
  predicate IsKeyword(k: TokenType) {
    k in {TokenType.And, TokenType.Class, TokenType.Else, TokenType.False, TokenType.Fun,
          TokenType.For, TokenType.If, TokenType.Nil, TokenType.Or, TokenType.Print,
          TokenType.Return, TokenType.Super, TokenType.This, TokenType.True,
          TokenType.Var, TokenType.While}
  }

  /** The reserved word of a keyword kind: the inverse of the keyword table. */
  function Spelling(k: TokenType): string
    requires IsKeyword(k)
  {
    match k
    case And => "and"
    case Class => "class"
    case Else => "else"
    case False => "false"
    case Fun => "fun"
    case For => "for"
    case If => "if"
    case Nil => "nil"
    case Or => "or"
    case Print => "print"
    case Return => "return"
    case Super => "super"
    case This => "this"
    case True => "true"
    case Var => "var"
    case While => "while"
  }

  /** The kind an identifier-shaped lexeme gets: its keyword kind if it is reserved. */
  function KeywordKind(text: string): (k: TokenType)
    ensures k != TokenType.Identifier <==> text in Keywords
    ensures k != TokenType.Identifier ==> IsKeyword(k) && Spelling(k) == text
  {
    if text in Keywords then Keywords[text] else TokenType.Identifier
  }

  /** Every keyword kind is reached from its reserved word, so the table is a bijection. */
  lemma KeywordTableRoundTrip(k: TokenType)
    requires IsKeyword(k)
    ensures Spelling(k) in Keywords && KeywordKind(Spelling(k)) == k
  {
  }
}
