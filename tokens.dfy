/** The scanner's output unit: token kinds, literal payloads, tokens and diagnostics. */
module Tokens {

  /** The closed set of token kinds. Spellings follow the Lox token enumeration. */
  datatype TokenType =
    // Single-character tokens.
    | LEFT_PAREN | RIGHT_PAREN | LEFT_BRACE | RIGHT_BRACE
    | COMMA | DOT | MINUS | PLUS | SEMICOLON | SLASH | STAR
    // One- or two-character tokens.
    | BANG | BANG_EQUAL | EQUAL | EQUAL_EQUAL
    | GREATER | GREATER_EQUAL | LESS | LESS_EQUAL
    // Literals.
    | IDENTIFIER | STRING | NUMBER
    // Keywords.
    | AND | CLASS | ELSE | FALSE | FUN | FOR | IF | NIL | OR
    | PRINT | RETURN | SUPER | THIS | TRUE | VAR | WHILE
    // End of input.
    | EOF

  /** The literal carried by a token. A number is kept exactly, as mantissa / 10^scale
      (so "3.14" is Num(314, 2)); it is not rounded to a binary floating-point value. */
  datatype Literal =
    | NoLiteral
    | Str(text: string)
    | Num(mantissa: nat, scale: nat)

  datatype Token = Token(kind: TokenType, lexeme: string, literal: Literal, line: nat)

  /** One call of the diagnostics reporter: the line it names and the message. */
  datatype Diagnostic = Diagnostic(line: nat, message: string)
}
