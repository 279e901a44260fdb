/**
 * The token and value model shared by the scanner, the parser and the
 * evaluator. The token kinds are the union of the kinds the scanner, the
 * parser and the evaluator use; they keep the source's spelling.
 */
module Tokens {

  datatype TokenKind =
    // single-character punctuation
    | LEFTPAREN | RIGHTPAREN | LEFTBRACE | RIGHTBRACE
    | COMMA | DOT | MINUS | PLUS | SEMICOLON | SLASH | STAR | MODULO
    // one- or two-character operators
    | BANG | BANGEQUAL | EQUAL | EQUALEQUAL
    | GREATER | GREATEREQUAL | LESS | LESSEQUAL
    | INCREMENTOR | DECREMENTOR
    // literal kinds
    | IDENTIFIER | STRING | NUMBER
    // keywords
    | AND | CLASS | ELSE | FALSE | FUNCTION | FOR | IF | NIL | OR
    | PRINT | RETURN | SUPER | THIS | TRUE | VAR | LET | WHILE
    // end of the token stream
    | EOF

  /** An atomic value: what a literal denotes and what a token may carry. */
  datatype Atomic = String(s: string) | Number(n: real) | Bool(b: bool) | Nil

  /**
   * A runtime value. Callables are opaque: the model only knows them by an
   * identity, and invoking one is left to the host (see Interpreter.Host).
   */
  datatype Value = Basic(a: Atomic) | LoxCallable(id: nat)

  /**
   * A token. As in the scanner, a token with no literal carries `Nil`.
   */
  datatype Token = Token(kind: TokenKind, lexeme: string, line: nat, literal: Atomic)
}
