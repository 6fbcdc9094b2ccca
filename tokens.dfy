/**
 * The token contract shared by both scanners and the parser: the kinds of
 * token, the literal payloads a token or a literal expression can carry, and
 * the token record itself.
 */
module Tokens {

  /** Every kind of token the scanners emit or the parser inspects. */
  datatype TokenType =
      // Single-character tokens
    | LeftParen | RightParen | LeftBrace | RightBrace
    | Comma | Dot | Minus | Plus | Semicolon | Slash | Star
      // One- or two-character tokens
    | Bang | BangEqual | Equal | EqualEqual
    | Greater | GreaterEqual | Less | LessEqual
      // Literals
    | Identifier | String | Number
      // Keywords
    | And | Class | Else | False | Fun | For | If | Nil | Or
    | Print | Return | Super | This | True | Var | While
    | Eof

  /**
   * A literal payload. `Null` is Java's `null`: the literal of every token
   * that is not a number or a string, and the value of the `nil` literal.
   * A number keeps its lexeme; converting it to a double is not modelled.
   */
  datatype Value = Num(digits: string) | Str(text: string) | Bool(b: bool) | Null

  /** A scanned token: its kind, the exact source text, its payload and its line. */
  datatype Token = Token(kind: TokenType, lexeme: string, literal: Value, line: nat)

  /** A `NUMBER` token carries a number and a `STRING` token a string, as the scanner makes them. */
  predicate Carries(kind: TokenType, literal: Value) {
    (kind == Number ==> literal.Num?) && (kind == String ==> literal.Str?)
  }

  /** Every token of the list carries the literal its kind calls for. */
  predicate LiteralsOfKind(toks: seq<Token>) {
    forall j :: 0 <= j < |toks| ==> Carries(toks[j].kind, toks[j].literal)
  }
}
