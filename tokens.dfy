/** The token model shared by the Scanner and the Parser, and the diagnostics
    every stage reports. */
module Tokens {

  /** The lexical categories of the language. */
  datatype TokenType =
    // Single-character tokens.
    | LeftParen | RightParen | LeftBrace | RightBrace
    | Comma | Dot | Minus | Plus | Semicolon | Slash | Star
    // One- or two-character tokens.
    | Bang | BangEqual | Equal | EqualEqual
    | Greater | GreaterEqual | Less | LessEqual
    // Literals.
    | Identifier | String | Number
    // Keywords.
    | And | Class | Else | False | Fun | For | If | Nil | Or
    | Print | Return | Super | This | True | Var | While
    // End of input.
    | Eof

  /** The literal payload of a token: `undefined`, a number or a string. */
  datatype Literal = NoLiteral | NumberLiteral(number: Decimal) | StringLiteral(text: string)

  /** The exact value of a decimal numeral: `digits` divided by ten to the
      power `scale` (so `12.50` is `Decimal(1250, 2)`). */
  datatype Decimal = Decimal(digits: nat, scale: nat)

  function Pow10(n: nat): (p: nat)
    ensures p > 0
  {
    if n == 0 then 1 else 10 * Pow10(n - 1)
  }

  /** The real number a decimal numeral denotes. */
  function DecimalToReal(d: Decimal): (r: real)
    ensures r * Pow10(d.scale) as real == d.digits as real
  {
    d.digits as real / Pow10(d.scale) as real
  }

  /** An immutable token: kind, the exact source text, literal and line. */
  datatype Token = Token(kind: TokenType, lexeme: string, literal: Literal, line: int)

  /** A reported error: the line, where on the line ("at end", "at 'x'"), and the message. */
  datatype Diagnostic = Diagnostic(line: int, where: string, message: string)

  /** The diagnostic for an error located at `token`: at end of input the
      location reads "at end", otherwise it quotes the token's lexeme. */
  function ErrorAt(token: Token, message: string): (d: Diagnostic)
    ensures d.line == token.line && d.message == message
    ensures token.kind == Eof ==> d.where == "at end"
    ensures token.kind != Eof ==> d.where == "at '" + token.lexeme + "'"
  {
    if token.kind == Eof then Diagnostic(token.line, "at end", message)
    else Diagnostic(token.line, "at '" + token.lexeme + "'", message)
  }

  /** A diagnostic's location tells the end of input apart from every
      token, whatever its lexeme, and gives back the lexeme it quotes. */
  lemma ErrorAtLocates(token: Token, message: string)
    ensures ErrorAt(token, message).where == "at end" <==> token.kind == Eof
    ensures var w := ErrorAt(token, message).where;
      token.kind != Eof ==> |w| >= 5 && w[4..|w| - 1] == token.lexeme
  {
    var w := ErrorAt(token, message).where;
    if token.kind != Eof {
      assert w[3] == '\'' && "at end"[3] == 'e';
      assert w[4..|w| - 1] == token.lexeme;
    }
  }
}
