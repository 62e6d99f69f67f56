/** The ladder of module Grammar on small token lists, all on line 1. */
module GrammarExamples {
  import opened Wrappers
  import opened Tokens
  import opened Ast
  import opened Grammar
  import opened Spelling
  import opened GrammarRoundTrip

  function Num(text: string): Token {
    Token(TokenType.Number, text, Some(Literal.Number(NumberValue(text))), 1)
  }

  function Op(kind: TokenType, text: string): Token {
    Token(kind, text, None, 1)
  }

  const End: Token := Token(Eof, "", None, 1)

  function Lit(text: string): Expr {
    Expr.Literal(LiteralValue.Number(NumberValue(text)))
  }

  /** `1 == 2 == 3` groups to the left. */
  lemma EqualityNestsLeft()
    ensures Parse([Num("1"), Op(TokenType.EqualEqual, "=="), Num("2"), Op(TokenType.EqualEqual, "=="), Num("3"), End])
      == Outcome(Ok(Binary(Binary(Lit("1"), BinaryOp.EqualEqual, Lit("2")), BinaryOp.EqualEqual, Lit("3"))), 5, [])
  {
    var ts := [Num("1"), Op(TokenType.EqualEqual, "=="), Num("2"), Op(TokenType.EqualEqual, "=="), Num("3"), End];
    var e := Binary(Binary(Lit("1"), BinaryOp.EqualEqual, Lit("2")), BinaryOp.EqualEqual, Lit("3"));
    assert Shapes(e) == [ShapeOf(ts[0]), ShapeOf(ts[1]), ShapeOf(ts[2]), ShapeOf(ts[3]), ShapeOf(ts[4])];
    ParseSpelling(ts, e);
  }

  /** `1 < 2 < 3` groups to the right: the right operand of a comparison is again a
      comparison. */
  lemma ComparisonNestsRight()
    ensures Parse([Num("1"), Op(TokenType.Less, "<"), Num("2"), Op(TokenType.Less, "<"), Num("3"), End])
      == Outcome(Ok(Binary(Lit("1"), BinaryOp.Less, Binary(Lit("2"), BinaryOp.Less, Lit("3")))), 5, [])
  {
    var ts := [Num("1"), Op(TokenType.Less, "<"), Num("2"), Op(TokenType.Less, "<"), Num("3"), End];
    var e := Binary(Lit("1"), BinaryOp.Less, Binary(Lit("2"), BinaryOp.Less, Lit("3")));
    assert Shapes(e) == [ShapeOf(ts[0]), ShapeOf(ts[1]), ShapeOf(ts[2]), ShapeOf(ts[3]), ShapeOf(ts[4])];
    ParseSpelling(ts, e);
  }

  /** `1 + 2 * 3`: the factor binds more tightly than the term. */
  lemma FactorBindsTighter()
    ensures Parse([Num("1"), Op(TokenType.Plus, "+"), Num("2"), Op(TokenType.Star, "*"), Num("3"), End])
      == Outcome(Ok(Binary(Lit("1"), BinaryOp.Plus, Binary(Lit("2"), BinaryOp.Star, Lit("3")))), 5, [])
  {
    var ts := [Num("1"), Op(TokenType.Plus, "+"), Num("2"), Op(TokenType.Star, "*"), Num("3"), End];
    var e := Binary(Lit("1"), BinaryOp.Plus, Binary(Lit("2"), BinaryOp.Star, Lit("3")));
    assert Shapes(e) == [ShapeOf(ts[0]), ShapeOf(ts[1]), ShapeOf(ts[2]), ShapeOf(ts[3]), ShapeOf(ts[4])];
    ParseSpelling(ts, e);
  }

  /** `- - 1`: prefix operators nest. */
  lemma UnaryNests()
    ensures Parse([Op(TokenType.Minus, "-"), Op(TokenType.Minus, "-"), Num("1"), End])
      == Outcome(Ok(Unary(UnaryOp.Minus, Unary(UnaryOp.Minus, Lit("1")))), 3, [])
  {
    var ts := [Op(TokenType.Minus, "-"), Op(TokenType.Minus, "-"), Num("1"), End];
    var e := Unary(UnaryOp.Minus, Unary(UnaryOp.Minus, Lit("1")));
    assert Shapes(e) == [ShapeOf(ts[0]), ShapeOf(ts[1]), ShapeOf(ts[2])];
    ParseSpelling(ts, e);
  }

  /** `(1` reports the missing parenthesis at the end of input. */
  lemma UnclosedGroup()
    ensures Parse([Op(LeftParen, "("), Num("1"), End])
      == Outcome(Err(ParseError.Error), 2, [Report(1, " at end", ExpectRightParen)])
  {
    var ts := [Op(LeftParen, "("), Num("1"), End];
    var o := Outcome(Err(ParseError.Error), 2, [Report(1, " at end", ExpectRightParen)]);
    GroupUnclosed();
    assert PrimaryAt(ts, 0) == o;
    assert UnaryAt(ts, 0) == o;
    assert FactorAt(ts, 0) == o;
    assert TermAt(ts, 0) == o;
    assert ComparisonAt(ts, 0) == o;
    assert EqualityAt(ts, 0) == o;
  }

  lemma GroupUnclosed()
    ensures GroupingAt([Op(LeftParen, "("), Num("1"), End], 0)
      == Outcome(Err(ParseError.Error), 2, [Report(1, " at end", ExpectRightParen)])
  {
    var ts := [Op(LeftParen, "("), Num("1"), End];
    assert Shapes(Lit("1")) == [ShapeOf(ts[1])];
    ExpressionPrints(Lit("1"), ts, 1, 2);
  }

  /** `)` is no expression, and the report names it. */
  lemma StrayParenthesis()
    ensures Parse([Op(RightParen, ")"), End])
      == Outcome(Err(ParseError.Error), 0, [Report(1, " at ')'", ExpectExpression)])
  {
    var ts := [Op(RightParen, ")"), End];
    var o := Outcome(Err(ParseError.Error), 0, [Report(1, " at ')'", ExpectExpression)]);
    assert " at '" + ")" + "'" == " at ')'";
    assert PrimaryAt(ts, 0) == o;
    assert UnaryAt(ts, 0) == o;
    assert FactorAt(ts, 0) == o;
    assert TermAt(ts, 0) == o;
    assert ComparisonAt(ts, 0) == o;
    assert EqualityAt(ts, 0) == o;
    assert Parse(ts) == o;
  }

  /** `1 2` parses the `1` and leaves the `2` where it is. */
  lemma TrailingTokensLeft()
    ensures Parse([Num("1"), Num("2"), End]) == Outcome(Ok(Lit("1")), 1, [])
  {
    var ts := [Num("1"), Num("2"), End];
    assert Shapes(Lit("1")) == [ShapeOf(ts[0])];
    ExpressionPrints(Lit("1"), ts, 0, 1);
  }
}
