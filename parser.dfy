/** The recursive-descent parser of jlox/src/parser.rs: one cursor over a fixed token
    list, and the diagnostics log that `Lox::parse_error` writes to. Every method is
    proved to do what the matching function of module Grammar describes. */
module Parsing {
  import opened Wrappers
  import opened Tokens
  import opened Ast
  import opened Grammar

  class Parser {
    /** The token list the parser reads; it never changes. */
    const tokens: seq<Token>
    /** The index of the next token to read. */
    var current: nat
    /** The diagnostics reported so far, oldest first. */
    var reports: seq<Report>

    /** The cursor is on the list, and the list ends with the end-of-input token. */
    ghost predicate Valid()
      reads this
    {
      EndsWithEof(tokens) && current < |tokens|
    }

    /** `Parser::new`: the cursor on the first token, nothing reported yet. */
    constructor(tokens: seq<Token>)
      ensures this.tokens == tokens && current == 0 && reports == []
      ensures EndsWithEof(tokens) ==> Valid()
    {
      this.tokens := tokens;
      current := 0;
      reports := [];
    }

    /** The state a parsing routine leaves, as the outcome `o` of the grammar says: its
        result, the cursor, and the diagnostics logged after those in `before`. */
    ghost predicate Reached(r: Result<Expr, ParseError>, o: Outcome, before: seq<Report>)
      reads this
    {
      r == o.result && current == o.next && reports == before + o.logged
    }

    /** `parse`: the expression at the cursor, if it parses; `None` otherwise. */
    method Parse() returns (e: Option<Expr>)
      requires Valid()
      modifies this
      ensures Valid()
      ensures var o := ExpressionAt(tokens, old(current));
        (e.Some? <==> o.result.Ok?) && (e.Some? ==> e.value == o.result.value)
        && current == o.next && reports == old(reports) + o.logged
    {
      var r := Expression();
      match r
      case Ok(expr) => e := Some(expr);
      case Err(_) => e := None;
    }

    /** `matches`: tries the kinds in order; on the first that checks, consumes one token. */
    method Matches(kinds: seq<TokenType>) returns (found: bool)
      requires Valid()
      modifies this
      ensures Valid() && reports == old(reports)
      ensures found <==> MatchesAt(tokens, old(current), kinds)
      ensures current == if found then old(current) + 1 else old(current)
    {
      for i := 0 to |kinds|
        invariant current == old(current) && reports == old(reports)
        invariant forall j :: 0 <= j < i ==> !Check(kinds[j])
      {
        if Check(kinds[i]) {
          var _ := Advance();
          return true;
        }
      }
      return false;
    }

    /** `check`: whether the current token has kind `kind`. It is never true at the end
        of input, not even for the end-of-input kind itself. */
    function Check(kind: TokenType): (b: bool)
      reads this
      requires Valid()
      ensures b <==> (tokens[current].kind == kind && kind != Eof)
      ensures IsAtEnd() ==> !b
    {
      if IsAtEnd() then false else Peek().kind == kind
    }

    /** `advance`: moves one token on unless at the end of input, and returns the token
        it moved past (the last token read). */
    method Advance() returns (t: Token)
      requires Valid() && (current > 0 || !IsAtEnd())
      modifies this
      ensures Valid() && reports == old(reports)
      ensures current == Advanced(tokens, old(current))
      ensures 0 < current && t == tokens[current - 1]
    {
      if !IsAtEnd() {
        current := current + 1;
      }
      t := Previous();
    }

    /** `is_at_end`: the current token is the end-of-input token. */
    function IsAtEnd(): (b: bool)
      reads this
      requires Valid()
      ensures b <==> AtEnd(tokens, current)
    {
      Peek().kind == Eof
    }

    function Peek(): Token
      reads this
      requires Valid()
    {
      tokens[current]
    }

    function Previous(): Token
      reads this
      requires Valid() && current > 0
    {
      tokens[current - 1]
    }

    /** `consume`: takes the expected token, or reports `message` at the current token
        and fails without moving. */
    method Consume(kind: TokenType, message: string) returns (r: Result<Token, ParseError>)
      requires Valid()
      modifies this
      ensures Valid()
      ensures Checks(tokens, old(current), kind) ==>
        r == Ok(tokens[old(current)]) && current == old(current) + 1 && reports == old(reports)
      ensures !Checks(tokens, old(current), kind) ==>
        r == Err(ParseError.Error) && current == old(current)
        && reports == old(reports) + [ParseErrorReport(tokens[old(current)], message)]
    {
      if Check(kind) {
        var t := Advance();
        return Ok(t);
      }
      var token := Peek();
      var e := Error(token, message);
      return Err(e);
    }

    /** `error`: logs the diagnostic `Lox::parse_error` prints for `token`. */
    method Error(token: Token, message: string) returns (e: ParseError)
      modifies this
      ensures e == ParseError.Error
      ensures current == old(current) && reports == old(reports) + [ParseErrorReport(token, message)]
    {
      reports := reports + [ParseErrorReport(token, message)];
      e := ParseError.Error;
    }

    /** `synchronize`: skips to the next statement boundary. */
    method Synchronize()
      requires Valid() && (current > 0 || !IsAtEnd())
      modifies this
      ensures Valid() && reports == old(reports)
      ensures current == Synchronized(tokens, old(current))
    {
      var _ := Advance();
      while !IsAtEnd()
        invariant Valid() && 0 < current && reports == old(reports)
        invariant SkipToBoundary(tokens, current) == Synchronized(tokens, old(current))
        decreases |tokens| - current
      {
        if Previous().kind == Semicolon {
          return;
        }
        match Peek().kind {
          case Class | Fun | Var | For | If | While | Print | Return =>
            return;
          case _ =>
        }
        var _ := Advance();
      }
    }

    /** `expression`. */
    method Expression() returns (r: Result<Expr, ParseError>)
      requires Valid()
      modifies this
      ensures Valid() && Reached(r, ExpressionAt(tokens, old(current)), old(reports))
      decreases |tokens| - current, 7
    {
      r := Equality();
    }

    /** `equality`. */
    method Equality() returns (r: Result<Expr, ParseError>)
      requires Valid()
      modifies this
      ensures Valid() && Reached(r, EqualityAt(tokens, old(current)), old(reports))
      decreases |tokens| - current, 6
    {
      var expr :- Comparison();
      ghost var at := current;
      var more := Matches(EqualityOps);
      while more
        invariant Valid() && old(current) <= at && reports == old(reports)
        invariant at < |tokens|
        invariant EqualityLoop(tokens, expr, at) == EqualityAt(tokens, old(current))
        invariant more == MatchesAt(tokens, at, EqualityOps)
        invariant current == if more then at + 1 else at
        decreases |tokens| - current
      {
        var operator := BinaryOpOf(Previous().kind);
        var right :- Comparison();
        expr := Binary(expr, operator, right);
        at := current;
        more := Matches(EqualityOps);
      }
      r := Ok(expr);
    }

    /** `comparison`: its right operand is again a comparison. */
    method Comparison() returns (r: Result<Expr, ParseError>)
      requires Valid()
      modifies this
      ensures Valid() && Reached(r, ComparisonAt(tokens, old(current)), old(reports))
      decreases |tokens| - current, 5
    {
      var expr :- Term();
      ghost var at := current;
      var more := Matches(ComparisonOps);
      while more
        invariant Valid() && old(current) < at && reports == old(reports)
        invariant at < |tokens|
        invariant ComparisonLoop(tokens, expr, at) == ComparisonAt(tokens, old(current))
        invariant more == MatchesAt(tokens, at, ComparisonOps)
        invariant current == if more then at + 1 else at
        decreases |tokens| - current
      {
        var operator := BinaryOpOf(Previous().kind);
        var right :- Comparison();
        expr := Binary(expr, operator, right);
        at := current;
        more := Matches(ComparisonOps);
      }
      r := Ok(expr);
    }

    /** `term`. */
    method Term() returns (r: Result<Expr, ParseError>)
      requires Valid()
      modifies this
      ensures Valid() && Reached(r, TermAt(tokens, old(current)), old(reports))
      decreases |tokens| - current, 4
    {
      var expr :- Factor();
      ghost var at := current;
      var more := Matches(TermOps);
      while more
        invariant Valid() && old(current) <= at && reports == old(reports)
        invariant at < |tokens|
        invariant TermLoop(tokens, expr, at) == TermAt(tokens, old(current))
        invariant more == MatchesAt(tokens, at, TermOps)
        invariant current == if more then at + 1 else at
        decreases |tokens| - current
      {
        var operator := BinaryOpOf(Previous().kind);
        var right :- Factor();
        expr := Binary(expr, operator, right);
        at := current;
        more := Matches(TermOps);
      }
      r := Ok(expr);
    }

    /** `factor`. */
    method Factor() returns (r: Result<Expr, ParseError>)
      requires Valid()
      modifies this
      ensures Valid() && Reached(r, FactorAt(tokens, old(current)), old(reports))
      decreases |tokens| - current, 3
    {
      var expr :- Unary();
      ghost var at := current;
      var more := Matches(FactorOps);
      while more
        invariant Valid() && old(current) <= at && reports == old(reports)
        invariant at < |tokens|
        invariant FactorLoop(tokens, expr, at) == FactorAt(tokens, old(current))
        invariant more == MatchesAt(tokens, at, FactorOps)
        invariant current == if more then at + 1 else at
        decreases |tokens| - current
      {
        var operator := BinaryOpOf(Previous().kind);
        var right :- Unary();
        var left := expr;
        expr := Binary(left, operator, right);
        at := current;
        more := Matches(FactorOps);
      }
      r := Ok(expr);
    }

    /** `unary`: prefix operators nest to the right. */
    method Unary() returns (r: Result<Expr, ParseError>)
      requires Valid()
      modifies this
      ensures Valid() && Reached(r, UnaryAt(tokens, old(current)), old(reports))
      decreases |tokens| - current, 2
    {
      var found := Matches(UnaryOps);
      if found {
        var operator := UnaryOpOf(Previous().kind);
        var right :- Unary();
        return Ok(Expr.Unary(operator, right));
      }
      r := Primary();
    }

    /** `primary`. */
    method Primary() returns (r: Result<Expr, ParseError>)
      requires Valid()
      modifies this
      ensures Valid() && Reached(r, PrimaryAt(tokens, old(current)), old(reports))
      decreases |tokens| - current, 1
    {
      var found := Matches([TokenType.False]);
      if found {
        return Ok(Expr.Literal(LiteralValue.False));
      }
      found := Matches([TokenType.True]);
      if found {
        return Ok(Expr.Literal(LiteralValue.True));
      }
      found := Matches([TokenType.Nil]);
      if found {
        return Ok(Expr.Literal(LiteralValue.Nil));
      }
      found := Matches([TokenType.String]);
      if found {
        match Previous().literal
        case Some(Str(text)) =>
          return Ok(Expr.Literal(LiteralValue.String(text)));
        case _ =>
          return Err(ParseError.Error);
      }
      found := Matches([TokenType.Number]);
      if found {
        match Previous().literal
        case Some(Number(value)) =>
          return Ok(Expr.Literal(LiteralValue.Number(value)));
        case _ =>
          return Err(ParseError.Error);
      }
      found := Matches([LeftParen]);
      if found {
        var inner :- Expression();
        var _ :- Consume(RightParen, ExpectRightParen);
        return Ok(Grouping(inner));
      }
      var e := Error(Peek(), ExpectExpression);
      return Err(e);
    }
  }
}
