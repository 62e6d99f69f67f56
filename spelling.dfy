/** How a tree of module Ast is spelled as tokens, and what the parser reads of a
    token: its kind, and the payload of a STRING or NUMBER token; lexemes and lines do
    not matter to it. */
module Spelling {
  import opened Wrappers
  import opened Tokens
  import opened Ast
  import opened Grammar

  /** What the parser reads of a token: its kind, and its payload when the kind is
      STRING or NUMBER. */
  datatype Shape = Shape(kind: TokenType, payload: Option<Literal>)

  function ShapeOf(token: Token): Shape
  {
    if token.kind == TokenType.String || token.kind == TokenType.Number then Shape(token.kind, token.literal)
    else Shape(token.kind, None)
  }

  /** The token a literal is spelled with. */
  function LiteralShape(value: LiteralValue): Shape
  {
    match value
    case Number(v) => Shape(TokenType.Number, Some(Literal.Number(v)))
    case String(text) => Shape(TokenType.String, Some(Str(text)))
    case True => Shape(TokenType.True, None)
    case False => Shape(TokenType.False, None)
    case Nil => Shape(TokenType.Nil, None)
  }

  /** The spelling of a tree: operators in place, parentheses exactly where the tree
      has a Grouping node. */
  function Shapes(e: Expr): (s: seq<Shape>)
    ensures |s| > 0
  {
    match e
    case Literal(value) => [LiteralShape(value)]
    case Unary(op, operand) => [Shape(UnaryKind(op), None)] + Shapes(operand)
    case Binary(left, op, right) => Shapes(left) + [Shape(BinaryKind(op), None)] + Shapes(right)
    case Grouping(inner) => [Shape(LeftParen, None)] + Shapes(inner) + [Shape(RightParen, None)]
  }

  /** What the parser reads of the token at index `i`. */
  function ShapeAt(tokens: seq<Token>, i: nat): (s: Shape)
    requires i < |tokens|
    ensures s.kind == tokens[i].kind
  {
    ShapeOf(tokens[i])
  }

  /** The tokens from `pos` on start with the spelling `shapes`. */
  predicate Spells(tokens: seq<Token>, pos: nat, shapes: seq<Shape>)
  {
    pos + |shapes| <= |tokens|
    && forall i :: pos <= i < pos + |shapes| ==> ShapeAt(tokens, i) == shapes[i - pos]
  }

  lemma SpellsSplit(tokens: seq<Token>, pos: nat, a: seq<Shape>, b: seq<Shape>)
    requires Spells(tokens, pos, a + b)
    ensures Spells(tokens, pos, a) && Spells(tokens, pos + |a|, b)
  {
    forall i | pos <= i < pos + |a|
      ensures ShapeAt(tokens, i) == a[i - pos]
    {
      assert (a + b)[i - pos] == a[i - pos];
    }
    forall i | pos + |a| <= i < pos + |a| + |b|
      ensures ShapeAt(tokens, i) == b[i - (pos + |a|)]
    {
      assert (a + b)[i - pos] == b[i - (pos + |a|)];
    }
  }

  lemma SpellsJoin(tokens: seq<Token>, pos: nat, a: seq<Shape>, b: seq<Shape>)
    requires Spells(tokens, pos, a) && Spells(tokens, pos + |a|, b)
    ensures Spells(tokens, pos, a + b)
  {
    forall i | pos <= i < pos + |a + b|
      ensures ShapeAt(tokens, i) == (a + b)[i - pos]
    {
      if i < pos + |a| {
        assert (a + b)[i - pos] == a[i - pos];
      } else {
        assert (a + b)[i - pos] == b[i - (pos + |a|)];
      }
    }
  }

  /** The tokens from `pos` up to `end` spell the tree `e`. */
  predicate Spelled(e: Expr, tokens: seq<Token>, pos: nat, end: nat)
  {
    pos + |Shapes(e)| == end && Spells(tokens, pos, Shapes(e))
  }

  /** The three parts of the spelling of a binary tree: the left operand up to `mid`,
      the operator token at `mid`, and the right operand after it. */
  lemma SpelledBinary(left: Expr, op: BinaryOp, right: Expr, tokens: seq<Token>, pos: nat, end: nat)
    returns (mid: nat)
    requires Spelled(Binary(left, op, right), tokens, pos, end)
    ensures pos < mid && mid + 1 < end <= |tokens|
    ensures Spelled(left, tokens, pos, mid)
    ensures tokens[mid].kind == BinaryKind(op)
    ensures Spelled(right, tokens, mid + 1, end)
  {
    var l, m, r := Shapes(left), [Shape(BinaryKind(op), None)], Shapes(right);
    assert Shapes(Binary(left, op, right)) == l + m + r;
    SpellsSplit(tokens, pos, l + m, r);
    SpellsSplit(tokens, pos, l, m);
    mid := pos + |l|;
    assert ShapeAt(tokens, mid) == m[0];
  }

  /** The spelling of a prefix operator applied to `operand`. */
  lemma SpelledUnary(op: UnaryOp, operand: Expr, tokens: seq<Token>, pos: nat, end: nat)
    requires Spelled(Unary(op, operand), tokens, pos, end)
    ensures pos + 1 < end <= |tokens|
    ensures tokens[pos].kind == UnaryKind(op)
    ensures Spelled(operand, tokens, pos + 1, end)
  {
    var m := [Shape(UnaryKind(op), None)];
    SpellsSplit(tokens, pos, m, Shapes(operand));
    assert ShapeAt(tokens, pos) == m[0];
  }

  /** The spelling of a parenthesised tree. */
  lemma SpelledGrouping(inner: Expr, tokens: seq<Token>, pos: nat, end: nat)
    requires Spelled(Grouping(inner), tokens, pos, end)
    ensures pos + 2 < end <= |tokens|
    ensures tokens[pos].kind == LeftParen
    ensures Spelled(inner, tokens, pos + 1, end - 1)
    ensures tokens[end - 1].kind == RightParen
  {
    var open, close := [Shape(LeftParen, None)], [Shape(RightParen, None)];
    SpellsSplit(tokens, pos, open + Shapes(inner), close);
    SpellsSplit(tokens, pos, open, Shapes(inner));
    assert ShapeAt(tokens, pos) == open[0];
    assert ShapeAt(tokens, end - 1) == close[0];
  }

  /** The spelling of a literal is one token. */
  lemma SpelledLiteral(value: LiteralValue, tokens: seq<Token>, pos: nat, end: nat)
    requires Spelled(Literal(value), tokens, pos, end)
    ensures end == pos + 1 <= |tokens|
    ensures ShapeOf(tokens[pos]) == LiteralShape(value)
  {
    assert ShapeAt(tokens, pos) == Shapes(Literal(value))[0];
  }

  /** The parts of a binary spelling, in order, spell the binary tree. */
  lemma JoinBinary(left: Expr, op: BinaryOp, right: Expr, tokens: seq<Token>, pos: nat, mid: nat, end: nat)
    requires Spelled(left, tokens, pos, mid) && mid < |tokens| && tokens[mid].kind == BinaryKind(op)
    requires Spelled(right, tokens, mid + 1, end)
    ensures Spelled(Binary(left, op, right), tokens, pos, end)
  {
    var l, m, r := Shapes(left), [Shape(BinaryKind(op), None)], Shapes(right);
    assert Spells(tokens, mid, m) by {
      assert ShapeAt(tokens, mid) == m[0];
    }
    SpellsJoin(tokens, pos, l, m);
    SpellsJoin(tokens, pos, l + m, r);
    assert Shapes(Binary(left, op, right)) == l + m + r;
  }

  lemma JoinUnary(op: UnaryOp, operand: Expr, tokens: seq<Token>, pos: nat, end: nat)
    requires pos < |tokens| && tokens[pos].kind == UnaryKind(op)
    requires Spelled(operand, tokens, pos + 1, end)
    ensures Spelled(Unary(op, operand), tokens, pos, end)
  {
    var m := [Shape(UnaryKind(op), None)];
    assert Spells(tokens, pos, m) by {
      assert ShapeAt(tokens, pos) == m[0];
    }
    SpellsJoin(tokens, pos, m, Shapes(operand));
  }

  lemma JoinGrouping(inner: Expr, tokens: seq<Token>, pos: nat, close: nat)
    requires pos < |tokens| && tokens[pos].kind == LeftParen
    requires Spelled(inner, tokens, pos + 1, close)
    requires close < |tokens| && tokens[close].kind == RightParen
    ensures Spelled(Grouping(inner), tokens, pos, close + 1)
  {
    var open, shut := [Shape(LeftParen, None)], [Shape(RightParen, None)];
    assert Spells(tokens, pos, open) by {
      assert ShapeAt(tokens, pos) == open[0];
    }
    assert Spells(tokens, close, shut) by {
      assert ShapeAt(tokens, close) == shut[0];
    }
    SpellsJoin(tokens, pos, open, Shapes(inner));
    SpellsJoin(tokens, pos, open + Shapes(inner), shut);
  }

  lemma JoinLiteral(value: LiteralValue, tokens: seq<Token>, pos: nat)
    requires pos < |tokens| && ShapeOf(tokens[pos]) == LiteralShape(value)
    ensures Spelled(Literal(value), tokens, pos, pos + 1)
  {
    assert ShapeAt(tokens, pos) == Shapes(Literal(value))[0];
  }

  /** A parsing outcome that succeeded built a tree whose spelling is exactly the
      tokens it consumed from `pos`. */
  predicate Consumed(o: Outcome, tokens: seq<Token>, pos: nat)
  {
    o.result.Ok? ==> Spelled(o.result.value, tokens, pos, o.next)
  }
}
