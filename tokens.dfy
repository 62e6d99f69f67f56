/** Tokens as the scanner produces them (jlox/src/scanner.rs:233-297) and the diagnostic
    entries that the scanner and the parser report (jlox/src/lox.rs:29-43). */
module Tokens {
  import opened Wrappers

  /** The lexical categories of jlox/src/scanner.rs:235-283. */
  datatype TokenType =
    // Single-character tokens.
    | LeftParen | RightParen | LeftBrace | RightBrace
    | Comma | Dot | Minus | Plus | Semicolon | Slash | Star
    // One or two character tokens.
    | Bang | BangEqual | Equal | EqualEqual
    | Greater | GreaterEqual | Less | LessEqual
    // Literals.
    | Identifier | String | Number
    // Keywords.
    | And | Class | Else | False | Fun | For | If | Nil | Or
    | Print | Return | Super | This | True | Var | While
    | Eof

  /** The numeric value of a NUMBER token. The source parses the lexeme into an f64;
      here the value is kept opaque, identified by the text it was parsed from. */
  datatype NumberValue = NumberValue(text: string)

  /** The payload of a STRING or NUMBER token. */
  datatype Literal = Str(text: string) | Number(value: NumberValue)

  datatype Token = Token(kind: TokenType, lexeme: string, literal: Option<Literal>, line: nat)

  /** One entry of the diagnostics log: what `Lox::report` would print. */
  datatype Report = Report(line: nat, context: string, message: string)

  /** `Lox::error`: a scanner diagnostic carries no context. */
  function LexError(line: nat, message: string): (r: Report)
    ensures r.line == line && r.message == message && |r.context| == 0
  {
    Report(line, "", message)
  }

  /** `Lox::parse_error`: a parser diagnostic names the offending token, or says
      " at end" when that token is the end-of-input marker. */
  function ParseErrorReport(token: Token, message: string): (r: Report)
    ensures r.line == token.line && r.message == message
    ensures r.context == " at end" <==> token.kind == Eof
    ensures token.kind != Eof ==> |r.context| == |token.lexeme| + 6 && r.context[5..|r.context| - 1] == token.lexeme
  {
    if token.kind == Eof then Report(token.line, " at end", message)
    else
      var context := " at '" + token.lexeme + "'";
      assert context[4] == '\'' != " at end"[4];
      Report(token.line, context, message)
  }
}
