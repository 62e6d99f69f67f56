/** The scanner of jlox/src/scanner.rs as a class whose fields the methods update in
    place, proved to follow the lexical rules of module Lexer step by step. */
module Scanning {
  import opened Wrappers
  import opened Tokens
  import opened Lexer

  class Scanner {
    const source: string
    /** The keyword table built by `Scanner::new`. */
    const keywords: map<string, TokenType> := Keywords
    var tokens: seq<Token>
    /** The tokens with the source spans they were cut from (not stored by the source). */
    ghost var located: seq<Located>
    var start: nat
    var current: nat
    var line: nat
    /** The diagnostics reported through `Lox::error`, in order. */
    var reports: seq<Report>

    ghost predicate Valid()
      reads this
    {
      start <= current <= |source| && tokens == TokensOf(located)
    }

    constructor (source: string)
      ensures Valid() && this.source == source
      ensures tokens == [] && located == [] && reports == []
      ensures start == 0 && current == 0 && line == 1
    {
      this.source := source;
      tokens, located, reports := [], [], [];
      start, current, line := 0, 0, 1;
    }

    /** The fields as a `ScanState` of the lexical rules. */
    ghost function State(): ScanState
      reads this
    {
      ScanState(located, reports, current, line, true)
    }

    /** Scans from the current position to the end. When a string is left open the
        scan stops (the source reads past the end of its buffer there) and `ok` is false. */
    method ScanTokens() returns (ok: bool)
      requires Valid()
      modifies this
      ensures Valid()
      ensures Run(source, old(State())) == if ok then Complete(located, reports) else Aborted(reports)
    {
      ghost var goal := Run(source, State());
      while !IsAtEnd()
        invariant Valid()
        invariant Run(source, State()) == goal
        decreases |source| - current
      {
        start := current;
        ok := ScanToken();
        if !ok {
          return;
        }
      }
      var eof := EofToken(line);
      tokens := tokens + [eof];
      located := located + [Located(eof, current, current)];
      ok := true;
    }

    /** One call of `scan_token`: the fields afterwards are the state `StepFrom` gives. */
    method ScanToken() returns (ok: bool)
      requires Valid() && start == current < |source|
      modifies this
      ensures Valid() && start == old(start)
      ensures ScanState(located, reports, current, line, ok) == StepFrom(source, old(State()))
    {
      ok := true;
      var c := Advance();
      NewlinesOne(source, start);
      match c
      case '(' => Single(LeftParen);
      case ')' => Single(RightParen);
      case '{' => Single(LeftBrace);
      case '}' => Single(RightBrace);
      case ',' => Single(Comma);
      case '.' => Single(Dot);
      case '-' => Single(Minus);
      case '+' => Single(Plus);
      case ';' => Single(Semicolon);
      case '*' => Single(Star);
      case '!' => OperatorArm(Bang, BangEqual);
      case '=' => OperatorArm(Equal, EqualEqual);
      case '<' => OperatorArm(Less, LessEqual);
      case '>' => OperatorArm(Greater, GreaterEqual);
      case '/' => SlashArm();
      case ' ' =>
      case '\r' =>
      case '\t' =>
      case '\n' => line := line + 1;
      case '"' => ok := QuoteArm();
      case _ => OtherArm(c);
    }

    /** The arms that emit a one-character token. */
    method Single(kind: TokenType)
      requires Valid() && current == start + 1
      requires SingleKind(source[start]) == Some(kind)
      modifies this`tokens, this`located
      ensures Valid()
      ensures ScanState(located, reports, current, line, true) == StepFrom(source, old(Started()))
    {
      StepIsSingle(source, start, kind);
      NoNewlines(source, start, current);
      AddToken(kind);
    }

    method OperatorArm(one: TokenType, two: TokenType)
      requires Valid() && current == start + 1
      requires || (source[start] == '!' && one == Bang && two == BangEqual)
               || (source[start] == '=' && one == Equal && two == EqualEqual)
               || (source[start] == '<' && one == Less && two == LessEqual)
               || (source[start] == '>' && one == Greater && two == GreaterEqual)
      modifies this`current, this`tokens, this`located
      ensures Valid()
      ensures ScanState(located, reports, current, line, true) == StepFrom(source, old(Started()))
    {
      StepIsOperator(source, start, one, two);
      AddOperator(one, two);
    }

    method SlashArm()
      requires Valid() && current == start + 1 && source[start] == '/'
      modifies this`current, this`tokens, this`located
      ensures Valid()
      ensures ScanState(located, reports, current, line, true) == StepFrom(source, old(Started()))
    {
      StepIsSlash(source, start);
      SlashOrComment();
    }

    method QuoteArm() returns (ok: bool)
      requires Valid() && current == start + 1 && source[start] == '"'
      modifies this`current, this`line, this`tokens, this`located, this`reports
      ensures Valid()
      ensures ScanState(located, reports, current, line, ok) == StepFrom(source, old(Started()))
    {
      StepIsString(source, start);
      ok := String();
    }

    method OtherArm(c: char)
      requires Valid() && current == start + 1 && c == source[start]
      requires c !in "(){},.-+;*!=<>/ \r\t\n\""
      modifies this`current, this`tokens, this`located, this`reports
      ensures Valid()
      ensures ScanState(located, reports, current, line, true) == StepFrom(source, old(Started()))
    {
      if IsDigit(c) {
        StepIsNumber(source, start);
        Number();
      } else if IsAlpha(c) {
        StepIsWord(source, start);
        Identifier();
      } else {
        NewlinesOne(source, start);
        Error(line, "Unexpected character.");
      }
    }

    /** The fields as the state at the start of the current token. */
    ghost function Started(): ScanState
      reads this
    {
      ScanState(located, reports, start, line, true)
    }

    /** The arms for `!`, `=`, `<` and `>`: the operator `two` when `=` follows, which
        is consumed, and the operator `one` otherwise. */
    method AddOperator(one: TokenType, two: TokenType)
      requires Valid() && current == start + 1
      requires || (source[start] == '!' && one == Bang && two == BangEqual)
               || (source[start] == '=' && one == Equal && two == EqualEqual)
               || (source[start] == '<' && one == Less && two == LessEqual)
               || (source[start] == '>' && one == Greater && two == GreaterEqual)
      modifies this`current, this`tokens, this`located
      ensures Valid()
      ensures ScanState(located, reports, current, line, true) == Apply(source, old(Started()), WithEqual(source, start, one, two))
    {
      var two_char := Matches('=');
      NoNewlines(source, start, current);
      AddToken(if two_char then two else one);
    }

    /** The arm for `/`: a comment, skipped up to the line break, or SLASH. */
    method SlashOrComment()
      requires Valid() && current == start + 1 && source[start] == '/'
      modifies this`current, this`tokens, this`located
      ensures Valid()
      ensures ScanState(located, reports, current, line, true) == Apply(source, old(Started()), SlashStep(source, start))
    {
      var comment := Matches('/');
      if comment {
        NoNewlines(source, start, current);
        SkipComment();
      } else {
        NoNewlines(source, start, current);
        AddToken(Slash);
      }
    }

    predicate IsAtEnd()
      reads this
    {
      current >= |source|
    }

    method Advance() returns (c: char)
      requires current < |source|
      modifies this`current
      ensures c == source[old(current)] && current == old(current) + 1
    {
      c := source[current];
      current := current + 1;
    }

    method AddToken(kind: TokenType)
      requires Valid()
      modifies this`tokens, this`located
      ensures Valid()
      ensures located == old(located) + [Located(Token(kind, source[start..current], None, line), start, current)]
    {
      AddTokenLiteral(kind, None);
    }

    method AddTokenLiteral(kind: TokenType, literal: Option<Literal>)
      requires Valid()
      modifies this`tokens, this`located
      ensures Valid()
      ensures located == old(located) + [Located(Token(kind, source[start..current], literal, line), start, current)]
    {
      var token := Token(kind, source[start..current], literal, line);
      tokens := tokens + [token];
      located := located + [Located(token, start, current)];
    }

    /** Consumes the next character when it is `expected`. */
    method Matches(expected: char) returns (matched: bool)
      requires current <= |source|
      modifies this`current
      ensures matched == (old(current) < |source| && source[old(current)] == expected)
      ensures current == if matched then old(current) + 1 else old(current)
    {
      if IsAtEnd() || source[current] != expected {
        return false;
      }
      current := current + 1;
      return true;
    }

    /** The next character, or NUL at the end. */
    function Peek(): char
      reads this
    {
      if IsAtEnd() then '\0' else source[current]
    }

    /** The character after the next one, or NUL past the end. */
    function PeekNext(): char
      reads this
    {
      if current + 1 >= |source| then '\0' else source[current + 1]
    }

    /** `Lox::error`: appends a scanner diagnostic to the log. */
    method Error(line: nat, message: string)
      modifies this`reports
      ensures reports == old(reports) + [LexError(line, message)]
    {
      reports := reports + [LexError(line, message)];
    }

    /** The loop `while peek() != '\n' && !is_at_end() { advance() }` of a comment. */
    method SkipComment()
      requires start < current <= |source|
      modifies this`current
      ensures old(current) <= current == FindFrom(source, old(current), '\n')
      ensures Newlines(source, start, current) == Newlines(source, start, old(current))
    {
      while Peek() != '\n' && !IsAtEnd()
        invariant old(current) <= current <= |source|
        invariant FindFrom(source, current, '\n') == FindFrom(source, old(current), '\n')
        invariant Newlines(source, start, current) == Newlines(source, start, old(current))
        decreases |source| - current
      {
        var _ := Advance();
      }
    }

    /** The loop of `string` that runs to the closing quote or the end, counting the
        line breaks it passes. */
    method SkipToQuote()
      requires current <= |source|
      modifies this`current, this`line
      ensures old(current) <= current == FindFrom(source, old(current), '"')
      ensures line == old(line) + Newlines(source, old(current), current)
    {
      while Peek() != '"' && !IsAtEnd()
        invariant old(current) <= current <= |source|
        invariant FindFrom(source, current, '"') == FindFrom(source, old(current), '"')
        invariant line == old(line) + Newlines(source, old(current), current)
        decreases |source| - current
      {
        if Peek() == '\n' {
          line := line + 1;
        }
        var _ := Advance();
      }
    }

    /** A string literal whose opening quote is at `start`. */
    method String() returns (ok: bool)
      requires Valid() && current == start + 1 && source[start] == '"'
      modifies this`current, this`line, this`tokens, this`located, this`reports
      ensures Valid()
      ensures ScanState(located, reports, current, line, ok) == Apply(source, old(Started()), StringStep(source, start))
    {
      SkipToQuote();
      NewlinesSkipFirst(source, start, current);
      if IsAtEnd() {
        Error(line, "Unterminated string.");
        return false;
      }
      var _ := Advance();
      var value := source[start + 1..current - 1];
      AddTokenLiteral(TokenType.String, Some(Str(value)));
      ok := true;
    }

    /** A number literal whose first digit is at `start`. */
    method Number()
      requires Valid() && current == start + 1 && IsDigit(source[start])
      modifies this`current, this`tokens, this`located
      ensures Valid()
      ensures ScanState(located, reports, current, line, true) == Apply(source, old(Started()), NumberStep(source, start))
    {
      SkipNumber();
      NumberOnOneLine(source, start);
      AddTokenLiteral(TokenType.Number, Some(Literal.Number(NumberValue(source[start..current]))));
    }

    /** The loops of `number`: the whole part, then a fraction when a digit follows the
        `.`. */
    method SkipNumber()
      requires start < current == start + 1 <= |source| && IsDigit(source[start])
      modifies this`current
      ensures current == NumberEnd(source, start)
    {
      SkipDigits();
      if Peek() == '.' && IsDigit(PeekNext()) {
        var _ := Advance();
        SkipDigits();
      }
    }

    /** The loop `while peek().is_ascii_digit() { advance() }` of `number`. */
    method SkipDigits()
      requires start < current <= |source|
      modifies this`current
      ensures old(current) <= current == DigitsEnd(source, old(current))
    {
      while IsDigit(Peek())
        invariant old(current) <= current <= |source|
        invariant DigitsEnd(source, current) == DigitsEnd(source, old(current))
        decreases |source| - current
      {
        var _ := Advance();
      }
    }

    /** The loop `while peek().is_alphanumeric() { advance() }` of `identifier`. */
    method SkipAlphanumeric()
      requires start < current <= |source|
      modifies this`current
      ensures old(current) <= current == WordEnd(source, old(current))
      ensures Newlines(source, start, current) == Newlines(source, start, old(current))
    {
      while IsAlphanumeric(Peek())
        invariant old(current) <= current <= |source|
        invariant WordEnd(source, current) == WordEnd(source, old(current))
        invariant Newlines(source, start, current) == Newlines(source, start, old(current))
        decreases |source| - current
      {
        var _ := Advance();
      }
    }

    /** An identifier or keyword whose first character is at `start`. */
    method Identifier()
      requires Valid() && current == start + 1 && IsAlpha(source[start])
      modifies this`current, this`tokens, this`located
      ensures Valid()
      ensures ScanState(located, reports, current, line, true) == Apply(source, old(Started()), WordStep(source, start))
    {
      SkipAlphanumeric();
      var text := source[start..current];
      var kind := if text in keywords then keywords[text] else TokenType.Identifier;
      AddToken(kind);
    }
  }

  /** Scans a whole source text, as `Lox::run` does: the tokens when the scan runs to the
      end, nothing when it stops inside an open string, and the diagnostics either way. */
  method Scan(source: string) returns (tokens: Option<seq<Token>>, reports: seq<Report>)
    ensures tokens.Some? <==> Lex(source).Complete?
    ensures tokens.Some? ==> tokens.value == TokensOf(Lex(source).located)
    ensures reports == Lex(source).reports
  {
    var scanner := new Scanner(source);
    var ok := scanner.ScanTokens();
    tokens := if ok then Some(scanner.tokens) else None;
    reports := scanner.reports;
  }
}
