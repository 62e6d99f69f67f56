/** The ladder of module Grammar read backwards: every tree it can build has one
    spelling as a token sequence, the ladder parses that spelling back into the same
    tree. */
module GrammarRoundTrip {
  import opened Wrappers
  import opened Tokens
  import opened Ast
  import opened Grammar
  import opened Spelling

  lemma UnaryKindInverse(op: UnaryOp)
    ensures UnaryOpOf(UnaryKind(op)) == op
  {
    match op
    case Minus => case Bang =>
  }

  lemma BinaryKindInverse(op: BinaryOp)
    ensures BinaryOpOf(BinaryKind(op)) == op
  {
    match op
    case EqualEqual => case BangEqual => case Less => case LessEqual =>
    case Greater => case GreaterEqual => case Plus => case Minus =>
    case Star => case Slash =>
  }

  // ---------------------------------------------------------------------------
  // The loops of the ladder, one step at a time: they start on the operand the rung
  // below parsed, take one operator and its right operand per turn, and stop on a
  // token that is not one of their operators.

  lemma EqualityStart(tokens: seq<Token>, pos: nat, e: Expr, end: nat)
    requires EndsWithEof(tokens) && pos < |tokens|
    requires ComparisonAt(tokens, pos) == Outcome(Ok(e), end, [])
    ensures EqualityAt(tokens, pos) == EqualityLoop(tokens, e, end)
  {
  }

  lemma EqualityStep(tokens: seq<Token>, pos: nat, left: Expr, op: BinaryOp, right: Expr, mid: nat, end: nat)
    requires EndsWithEof(tokens) && pos < |tokens| && mid < end < |tokens|
    requires EqualityAt(tokens, pos) == EqualityLoop(tokens, left, mid)
    requires tokens[mid].kind == BinaryKind(op) && Level(op) == 1
    requires ComparisonAt(tokens, mid + 1) == Outcome(Ok(right), end, [])
    ensures EqualityAt(tokens, pos) == EqualityLoop(tokens, Binary(left, op, right), end)
  {
    BinaryKindInverse(op);
    assert MatchesAt(tokens, mid, EqualityOps);
  }

  lemma EqualityStop(tokens: seq<Token>, e: Expr, end: nat)
    requires EndsWithEof(tokens) && end < |tokens| && OpLevel(tokens[end].kind) < 1
    ensures EqualityLoop(tokens, e, end) == Outcome(Ok(e), end, [])
  {
    assert !MatchesAt(tokens, end, EqualityOps);
  }

  lemma ComparisonStart(tokens: seq<Token>, pos: nat, e: Expr, end: nat)
    requires EndsWithEof(tokens) && pos < |tokens|
    requires TermAt(tokens, pos) == Outcome(Ok(e), end, [])
    ensures ComparisonAt(tokens, pos) == ComparisonLoop(tokens, e, end)
  {
  }

  lemma ComparisonTurn(tokens: seq<Token>, left: Expr, op: BinaryOp, right: Expr, mid: nat, end: nat)
    requires EndsWithEof(tokens) && mid < end < |tokens|
    requires tokens[mid].kind == BinaryKind(op) && Level(op) == 2
    requires ComparisonAt(tokens, mid + 1) == Outcome(Ok(right), end, [])
    ensures ComparisonLoop(tokens, left, mid) == ComparisonLoop(tokens, Binary(left, op, right), end)
  {
    BinaryKindInverse(op);
    assert MatchesAt(tokens, mid, ComparisonOps);
  }

  lemma ComparisonStop(tokens: seq<Token>, e: Expr, end: nat)
    requires EndsWithEof(tokens) && end < |tokens| && OpLevel(tokens[end].kind) < 2
    ensures ComparisonLoop(tokens, e, end) == Outcome(Ok(e), end, [])
  {
    assert !MatchesAt(tokens, end, ComparisonOps);
  }

  lemma TermStart(tokens: seq<Token>, pos: nat, e: Expr, end: nat)
    requires EndsWithEof(tokens) && pos < |tokens|
    requires FactorAt(tokens, pos) == Outcome(Ok(e), end, [])
    ensures TermAt(tokens, pos) == TermLoop(tokens, e, end)
  {
  }

  lemma TermStep(tokens: seq<Token>, pos: nat, left: Expr, op: BinaryOp, right: Expr, mid: nat, end: nat)
    requires EndsWithEof(tokens) && pos < |tokens| && mid < end < |tokens|
    requires TermAt(tokens, pos) == TermLoop(tokens, left, mid)
    requires tokens[mid].kind == BinaryKind(op) && Level(op) == 3
    requires FactorAt(tokens, mid + 1) == Outcome(Ok(right), end, [])
    ensures TermAt(tokens, pos) == TermLoop(tokens, Binary(left, op, right), end)
  {
    BinaryKindInverse(op);
    assert MatchesAt(tokens, mid, TermOps);
  }

  lemma TermStop(tokens: seq<Token>, e: Expr, end: nat)
    requires EndsWithEof(tokens) && end < |tokens| && OpLevel(tokens[end].kind) < 3
    ensures TermLoop(tokens, e, end) == Outcome(Ok(e), end, [])
  {
    assert !MatchesAt(tokens, end, TermOps);
  }

  lemma FactorStart(tokens: seq<Token>, pos: nat, e: Expr, end: nat)
    requires EndsWithEof(tokens) && pos < |tokens|
    requires UnaryAt(tokens, pos) == Outcome(Ok(e), end, [])
    ensures FactorAt(tokens, pos) == FactorLoop(tokens, e, end)
  {
  }

  lemma FactorStep(tokens: seq<Token>, pos: nat, left: Expr, op: BinaryOp, right: Expr, mid: nat, end: nat)
    requires EndsWithEof(tokens) && pos < |tokens| && mid < end < |tokens|
    requires FactorAt(tokens, pos) == FactorLoop(tokens, left, mid)
    requires tokens[mid].kind == BinaryKind(op) && Level(op) == 4
    requires UnaryAt(tokens, mid + 1) == Outcome(Ok(right), end, [])
    ensures FactorAt(tokens, pos) == FactorLoop(tokens, Binary(left, op, right), end)
  {
    BinaryKindInverse(op);
    assert MatchesAt(tokens, mid, FactorOps);
  }

  lemma FactorStop(tokens: seq<Token>, e: Expr, end: nat)
    requires EndsWithEof(tokens) && end < |tokens| && OpLevel(tokens[end].kind) < 4
    ensures FactorLoop(tokens, e, end) == Outcome(Ok(e), end, [])
  {
    assert !MatchesAt(tokens, end, FactorOps);
  }

  // ---------------------------------------------------------------------------
  // The induction over the tree, rung by rung. Each lemma takes the tokens from
  // `pos` up to `end` as the spelling of `e`, and the token at `end` as one that
  // its rung does not take as an operator.

  /** `expression` on the spelling of a tree the ladder can build, followed by a token
      that is not a binary operator, returns that tree and stops on that token. */
  lemma {:induction false} ExpressionPrints(e: Expr, tokens: seq<Token>, pos: nat, end: nat)
    requires EndsWithEof(tokens) && Canonical(e)
    requires Spelled(e, tokens, pos, end) && end < |tokens| && OpLevel(tokens[end].kind) < 1
    ensures ExpressionAt(tokens, pos) == Outcome(Ok(e), end, [])
    decreases e, 13
  {
    EqualityPrefix(e, tokens, pos, end);
    EqualityStop(tokens, e, end);
  }

  /** `equality` folds the spelling of `e` into `e`, then goes on looping after it. */
  lemma {:induction false} EqualityPrefix(e: Expr, tokens: seq<Token>, pos: nat, end: nat)
    requires EndsWithEof(tokens) && Canonical(e)
    requires Spelled(e, tokens, pos, end) && end < |tokens| && OpLevel(tokens[end].kind) < 2
    ensures EqualityAt(tokens, pos) == EqualityLoop(tokens, e, end)
    decreases e, 12
  {
    match e
    case Binary(left, op, right) =>
      if Level(op) == 1 {
        EqualityBinary(left, op, right, tokens, pos, end);
      } else {
        ComparisonPrints(e, tokens, pos, end);
        EqualityStart(tokens, pos, e, end);
      }
    case _ =>
      ComparisonPrints(e, tokens, pos, end);
      EqualityStart(tokens, pos, e, end);
  }

  lemma {:induction false} EqualityBinary(left: Expr, op: BinaryOp, right: Expr, tokens: seq<Token>, pos: nat, end: nat)
    requires EndsWithEof(tokens) && Level(op) == 1
    requires Canonical(left) && Canonical(right) && Prec(right) >= 2
    requires Spelled(Binary(left, op, right), tokens, pos, end)
    requires end < |tokens| && OpLevel(tokens[end].kind) < 2
    ensures EqualityAt(tokens, pos) == EqualityLoop(tokens, Binary(left, op, right), end)
    decreases Binary(left, op, right), 11
  {
    var mid := SpelledBinary(left, op, right, tokens, pos, end);
    EqualityPrefix(left, tokens, pos, mid);
    ComparisonPrints(right, tokens, mid + 1, end);
    EqualityStep(tokens, pos, left, op, right, mid, end);
  }

  /** `comparison` parses the spelling of `e` into `e`; its right operands nest. */
  lemma {:induction false} ComparisonPrints(e: Expr, tokens: seq<Token>, pos: nat, end: nat)
    requires EndsWithEof(tokens) && Canonical(e) && Prec(e) >= 2
    requires Spelled(e, tokens, pos, end) && end < |tokens| && OpLevel(tokens[end].kind) < 2
    ensures ComparisonAt(tokens, pos) == Outcome(Ok(e), end, [])
    decreases e, 10
  {
    match e
    case Binary(left, op, right) =>
      if Level(op) == 2 {
        ComparisonBinary(left, op, right, tokens, pos, end);
      } else {
        TermPrints(e, tokens, pos, end);
        ComparisonStart(tokens, pos, e, end);
        ComparisonStop(tokens, e, end);
      }
    case _ =>
      TermPrints(e, tokens, pos, end);
      ComparisonStart(tokens, pos, e, end);
      ComparisonStop(tokens, e, end);
  }

  lemma {:induction false} ComparisonBinary(left: Expr, op: BinaryOp, right: Expr, tokens: seq<Token>, pos: nat, end: nat)
    requires EndsWithEof(tokens) && Level(op) == 2
    requires Canonical(left) && Prec(left) >= 3 && Canonical(right) && Prec(right) >= 2
    requires Spelled(Binary(left, op, right), tokens, pos, end)
    requires end < |tokens| && OpLevel(tokens[end].kind) < 2
    ensures ComparisonAt(tokens, pos) == Outcome(Ok(Binary(left, op, right)), end, [])
    decreases Binary(left, op, right), 9
  {
    var mid := SpelledBinary(left, op, right, tokens, pos, end);
    TermPrints(left, tokens, pos, mid);
    ComparisonPrints(right, tokens, mid + 1, end);
    ComparisonStart(tokens, pos, left, mid);
    ComparisonTurn(tokens, left, op, right, mid, end);
    ComparisonStop(tokens, Binary(left, op, right), end);
  }

  lemma {:induction false} TermPrints(e: Expr, tokens: seq<Token>, pos: nat, end: nat)
    requires EndsWithEof(tokens) && Canonical(e) && Prec(e) >= 3
    requires Spelled(e, tokens, pos, end) && end < |tokens| && OpLevel(tokens[end].kind) < 3
    ensures TermAt(tokens, pos) == Outcome(Ok(e), end, [])
    decreases e, 8
  {
    TermPrefix(e, tokens, pos, end);
    TermStop(tokens, e, end);
  }

  /** `term` folds the spelling of `e` into `e`, then goes on looping after it. */
  lemma {:induction false} TermPrefix(e: Expr, tokens: seq<Token>, pos: nat, end: nat)
    requires EndsWithEof(tokens) && Canonical(e) && Prec(e) >= 3
    requires Spelled(e, tokens, pos, end) && end < |tokens| && OpLevel(tokens[end].kind) < 4
    ensures TermAt(tokens, pos) == TermLoop(tokens, e, end)
    decreases e, 7
  {
    match e
    case Binary(left, op, right) =>
      if Level(op) == 3 {
        TermBinary(left, op, right, tokens, pos, end);
      } else {
        FactorPrints(e, tokens, pos, end);
        TermStart(tokens, pos, e, end);
      }
    case _ =>
      FactorPrints(e, tokens, pos, end);
      TermStart(tokens, pos, e, end);
  }

  lemma {:induction false} TermBinary(left: Expr, op: BinaryOp, right: Expr, tokens: seq<Token>, pos: nat, end: nat)
    requires EndsWithEof(tokens) && Level(op) == 3
    requires Canonical(left) && Prec(left) >= 3 && Canonical(right) && Prec(right) >= 4
    requires Spelled(Binary(left, op, right), tokens, pos, end)
    requires end < |tokens| && OpLevel(tokens[end].kind) < 4
    ensures TermAt(tokens, pos) == TermLoop(tokens, Binary(left, op, right), end)
    decreases Binary(left, op, right), 6
  {
    var mid := SpelledBinary(left, op, right, tokens, pos, end);
    TermPrefix(left, tokens, pos, mid);
    FactorPrints(right, tokens, mid + 1, end);
    TermStep(tokens, pos, left, op, right, mid, end);
  }

  lemma {:induction false} FactorPrints(e: Expr, tokens: seq<Token>, pos: nat, end: nat)
    requires EndsWithEof(tokens) && Canonical(e) && Prec(e) >= 4
    requires Spelled(e, tokens, pos, end) && end < |tokens| && OpLevel(tokens[end].kind) < 4
    ensures FactorAt(tokens, pos) == Outcome(Ok(e), end, [])
    decreases e, 5
  {
    FactorPrefix(e, tokens, pos, end);
    FactorStop(tokens, e, end);
  }

  /** `factor` folds the spelling of `e` into `e`, then goes on looping after it. */
  lemma {:induction false} FactorPrefix(e: Expr, tokens: seq<Token>, pos: nat, end: nat)
    requires EndsWithEof(tokens) && Canonical(e) && Prec(e) >= 4
    requires Spelled(e, tokens, pos, end) && end < |tokens|
    ensures FactorAt(tokens, pos) == FactorLoop(tokens, e, end)
    decreases e, 4
  {
    match e
    case Binary(left, op, right) =>
      FactorBinary(left, op, right, tokens, pos, end);
    case _ =>
      UnaryPrints(e, tokens, pos, end);
      FactorStart(tokens, pos, e, end);
  }

  lemma {:induction false} FactorBinary(left: Expr, op: BinaryOp, right: Expr, tokens: seq<Token>, pos: nat, end: nat)
    requires EndsWithEof(tokens) && Level(op) == 4
    requires Canonical(left) && Prec(left) >= 4 && Canonical(right) && Prec(right) >= 5
    requires Spelled(Binary(left, op, right), tokens, pos, end) && end < |tokens|
    ensures FactorAt(tokens, pos) == FactorLoop(tokens, Binary(left, op, right), end)
    decreases Binary(left, op, right), 3
  {
    var mid := SpelledBinary(left, op, right, tokens, pos, end);
    FactorPrefix(left, tokens, pos, mid);
    UnaryPrints(right, tokens, mid + 1, end);
    FactorStep(tokens, pos, left, op, right, mid, end);
  }

  /** `unary` parses the spelling of a prefix operator or a primary. */
  lemma {:induction false} UnaryPrints(e: Expr, tokens: seq<Token>, pos: nat, end: nat)
    requires EndsWithEof(tokens) && Canonical(e) && Prec(e) >= 5
    requires Spelled(e, tokens, pos, end) && end < |tokens|
    ensures UnaryAt(tokens, pos) == Outcome(Ok(e), end, [])
    decreases e, 2
  {
    match e
    case Unary(op, operand) =>
      OperatorPrints(op, operand, tokens, pos, end);
    case Literal(value) =>
      LiteralNotOperator(value, tokens, pos, end);
      LiteralPrints(value, tokens, pos, end);
      UnaryToPrimary(tokens, pos);
    case Grouping(inner) =>
      GroupingPrints(inner, tokens, pos, end);
      UnaryToPrimary(tokens, pos);
  }

  lemma {:induction false} OperatorPrints(op: UnaryOp, operand: Expr, tokens: seq<Token>, pos: nat, end: nat)
    requires EndsWithEof(tokens) && Canonical(operand) && Prec(operand) >= 5
    requires Spelled(Unary(op, operand), tokens, pos, end) && end < |tokens|
    ensures UnaryAt(tokens, pos) == Outcome(Ok(Unary(op, operand)), end, [])
    decreases Unary(op, operand), 1
  {
    SpelledUnary(op, operand, tokens, pos, end);
    UnaryPrints(operand, tokens, pos + 1, end);
    UnaryStep(tokens, pos, op, operand, end);
  }

  /** A prefix operator token applies to the `unary` after it. */
  lemma UnaryStep(tokens: seq<Token>, pos: nat, op: UnaryOp, operand: Expr, end: nat)
    requires EndsWithEof(tokens) && pos + 1 < |tokens| && tokens[pos].kind == UnaryKind(op)
    requires UnaryAt(tokens, pos + 1) == Outcome(Ok(operand), end, [])
    ensures UnaryAt(tokens, pos) == Outcome(Ok(Unary(op, operand)), end, [])
  {
    UnaryKindInverse(op);
    assert MatchesAt(tokens, pos, UnaryOps);
  }

  /** A token that is not a prefix operator goes to `primary`. */
  lemma UnaryToPrimary(tokens: seq<Token>, pos: nat)
    requires EndsWithEof(tokens) && pos < |tokens|
    requires tokens[pos].kind !in UnaryOps
    ensures UnaryAt(tokens, pos) == PrimaryAt(tokens, pos)
  {
  }

  /** The token of a literal is no prefix operator. */
  lemma LiteralNotOperator(value: LiteralValue, tokens: seq<Token>, pos: nat, end: nat)
    requires Spelled(Literal(value), tokens, pos, end)
    ensures pos < |tokens| && tokens[pos].kind !in UnaryOps
  {
    SpelledLiteral(value, tokens, pos, end);
  }

  /** `primary` on the token of a literal. */
  lemma LiteralPrints(value: LiteralValue, tokens: seq<Token>, pos: nat, end: nat)
    requires EndsWithEof(tokens) && Spelled(Literal(value), tokens, pos, end) && end < |tokens|
    ensures PrimaryAt(tokens, pos) == Outcome(Ok(Literal(value)), end, [])
  {
    SpelledLiteral(value, tokens, pos, end);
  }

  /** `primary` on a parenthesised spelling. */
  lemma {:induction false} GroupingPrints(inner: Expr, tokens: seq<Token>, pos: nat, end: nat)
    requires EndsWithEof(tokens) && Canonical(inner)
    requires Spelled(Grouping(inner), tokens, pos, end) && end < |tokens|
    ensures tokens[pos].kind !in UnaryOps
    ensures PrimaryAt(tokens, pos) == Outcome(Ok(Grouping(inner)), end, [])
    decreases Grouping(inner), 1
  {
    SpelledGrouping(inner, tokens, pos, end);
    assert OpLevel(tokens[end - 1].kind) == 0;
    ExpressionPrints(inner, tokens, pos + 1, end - 1);
  }

  // ---------------------------------------------------------------------------
  // Parsing a spelling gives back the tree.

  /** The whole input is the spelling of a tree the ladder can build, then EOF:
      `parse` returns that tree and stops on the EOF. */
  lemma ParseSpelling(tokens: seq<Token>, e: Expr)
    requires EndsWithEof(tokens) && Canonical(e)
    requires Spells(tokens, 0, Shapes(e)) && |tokens| == |Shapes(e)| + 1
    ensures Parse(tokens) == Outcome(Ok(e), |Shapes(e)|, [])
  {
    ExpressionPrints(e, tokens, 0, |Shapes(e)|);
  }

  // ---------------------------------------------------------------------------
  // Every success of the ladder consumed exactly the spelling of its tree.

  /** `parse`, when it succeeds, read exactly the spelling of the tree it returns. */
  lemma ParseConsumed(tokens: seq<Token>)
    requires EndsWithEof(tokens)
    ensures Consumed(Parse(tokens), tokens, 0)
  {
    ExpressionConsumed(tokens, 0);
  }

  lemma {:induction false} ExpressionConsumed(tokens: seq<Token>, pos: nat)
    requires EndsWithEof(tokens) && pos < |tokens|
    ensures Consumed(ExpressionAt(tokens, pos), tokens, pos)
    decreases |tokens| - pos, 7
  {
    EqualityConsumed(tokens, pos);
  }

  lemma {:induction false} EqualityConsumed(tokens: seq<Token>, pos: nat)
    requires EndsWithEof(tokens) && pos < |tokens|
    ensures Consumed(EqualityAt(tokens, pos), tokens, pos)
    decreases |tokens| - pos, 6
  {
    var first := ComparisonAt(tokens, pos);
    ComparisonConsumed(tokens, pos);
    if first.result.Ok? {
      EqualityLoopConsumed(tokens, first.result.value, pos, first.next);
    }
  }

  lemma {:induction false} EqualityLoopConsumed(tokens: seq<Token>, left: Expr, start: nat, pos: nat)
    requires EndsWithEof(tokens) && pos < |tokens| && Spelled(left, tokens, start, pos)
    ensures Consumed(EqualityLoop(tokens, left, pos), tokens, start)
    decreases |tokens| - pos, 6
  {
    if MatchesAt(tokens, pos, EqualityOps) {
      var op := BinaryOpOf(tokens[pos].kind);
      var right := ComparisonAt(tokens, pos + 1);
      ComparisonConsumed(tokens, pos + 1);
      if right.result.Ok? {
        JoinBinary(left, op, right.result.value, tokens, start, pos, right.next);
        EqualityLoopConsumed(tokens, Binary(left, op, right.result.value), start, right.next);
      }
    }
  }

  lemma {:induction false} ComparisonConsumed(tokens: seq<Token>, pos: nat)
    requires EndsWithEof(tokens) && pos < |tokens|
    ensures Consumed(ComparisonAt(tokens, pos), tokens, pos)
    decreases |tokens| - pos, 5
  {
    var first := TermAt(tokens, pos);
    TermConsumed(tokens, pos);
    if first.result.Ok? {
      ComparisonLoopConsumed(tokens, first.result.value, pos, first.next);
    }
  }

  lemma {:induction false} ComparisonLoopConsumed(tokens: seq<Token>, left: Expr, start: nat, pos: nat)
    requires EndsWithEof(tokens) && pos < |tokens| && Spelled(left, tokens, start, pos)
    ensures Consumed(ComparisonLoop(tokens, left, pos), tokens, start)
    decreases |tokens| - pos, 5
  {
    if MatchesAt(tokens, pos, ComparisonOps) {
      var op := BinaryOpOf(tokens[pos].kind);
      var right := ComparisonAt(tokens, pos + 1);
      ComparisonConsumed(tokens, pos + 1);
      if right.result.Ok? {
        JoinBinary(left, op, right.result.value, tokens, start, pos, right.next);
        ComparisonLoopConsumed(tokens, Binary(left, op, right.result.value), start, right.next);
      }
    }
  }

  lemma {:induction false} TermConsumed(tokens: seq<Token>, pos: nat)
    requires EndsWithEof(tokens) && pos < |tokens|
    ensures Consumed(TermAt(tokens, pos), tokens, pos)
    decreases |tokens| - pos, 4
  {
    var first := FactorAt(tokens, pos);
    FactorConsumed(tokens, pos);
    if first.result.Ok? {
      TermLoopConsumed(tokens, first.result.value, pos, first.next);
    }
  }

  lemma {:induction false} TermLoopConsumed(tokens: seq<Token>, left: Expr, start: nat, pos: nat)
    requires EndsWithEof(tokens) && pos < |tokens| && Spelled(left, tokens, start, pos)
    ensures Consumed(TermLoop(tokens, left, pos), tokens, start)
    decreases |tokens| - pos, 4
  {
    if MatchesAt(tokens, pos, TermOps) {
      var op := BinaryOpOf(tokens[pos].kind);
      var right := FactorAt(tokens, pos + 1);
      FactorConsumed(tokens, pos + 1);
      if right.result.Ok? {
        JoinBinary(left, op, right.result.value, tokens, start, pos, right.next);
        TermLoopConsumed(tokens, Binary(left, op, right.result.value), start, right.next);
      }
    }
  }

  lemma {:induction false} FactorConsumed(tokens: seq<Token>, pos: nat)
    requires EndsWithEof(tokens) && pos < |tokens|
    ensures Consumed(FactorAt(tokens, pos), tokens, pos)
    decreases |tokens| - pos, 3
  {
    var first := UnaryAt(tokens, pos);
    UnaryConsumed(tokens, pos);
    if first.result.Ok? {
      FactorLoopConsumed(tokens, first.result.value, pos, first.next);
    }
  }

  lemma {:induction false} FactorLoopConsumed(tokens: seq<Token>, left: Expr, start: nat, pos: nat)
    requires EndsWithEof(tokens) && pos < |tokens| && Spelled(left, tokens, start, pos)
    ensures Consumed(FactorLoop(tokens, left, pos), tokens, start)
    decreases |tokens| - pos, 3
  {
    if MatchesAt(tokens, pos, FactorOps) {
      var op := BinaryOpOf(tokens[pos].kind);
      var right := UnaryAt(tokens, pos + 1);
      UnaryConsumed(tokens, pos + 1);
      if right.result.Ok? {
        JoinBinary(left, op, right.result.value, tokens, start, pos, right.next);
        FactorLoopConsumed(tokens, Binary(left, op, right.result.value), start, right.next);
      }
    }
  }

  lemma {:induction false} UnaryConsumed(tokens: seq<Token>, pos: nat)
    requires EndsWithEof(tokens) && pos < |tokens|
    ensures Consumed(UnaryAt(tokens, pos), tokens, pos)
    decreases |tokens| - pos, 2
  {
    if MatchesAt(tokens, pos, UnaryOps) {
      var op := UnaryOpOf(tokens[pos].kind);
      var operand := UnaryAt(tokens, pos + 1);
      UnaryConsumed(tokens, pos + 1);
      if operand.result.Ok? {
        JoinUnary(op, operand.result.value, tokens, pos, operand.next);
      }
    } else {
      PrimaryConsumed(tokens, pos);
    }
  }

  lemma {:induction false} PrimaryConsumed(tokens: seq<Token>, pos: nat)
    requires EndsWithEof(tokens) && pos < |tokens|
    ensures Consumed(PrimaryAt(tokens, pos), tokens, pos)
    decreases |tokens| - pos, 1
  {
    if MatchesAt(tokens, pos, [TokenType.False]) {
      JoinLiteral(LiteralValue.False, tokens, pos);
    } else if MatchesAt(tokens, pos, [TokenType.True]) {
      JoinLiteral(LiteralValue.True, tokens, pos);
    } else if MatchesAt(tokens, pos, [TokenType.Nil]) {
      JoinLiteral(LiteralValue.Nil, tokens, pos);
    } else if MatchesAt(tokens, pos, [TokenType.String]) || MatchesAt(tokens, pos, [TokenType.Number]) {
      PayloadConsumed(tokens, pos);
    } else if MatchesAt(tokens, pos, [LeftParen]) {
      GroupingConsumed(tokens, pos);
    }
  }

  lemma PayloadConsumed(tokens: seq<Token>, pos: nat)
    requires EndsWithEof(tokens) && pos < |tokens|
    requires MatchesAt(tokens, pos, [TokenType.String]) || MatchesAt(tokens, pos, [TokenType.Number])
    ensures Consumed(PayloadAt(tokens, pos), tokens, pos)
  {
    var o := PayloadAt(tokens, pos);
    if o.result.Ok? {
      JoinLiteral(o.result.value.value, tokens, pos);
    }
  }

  lemma {:induction false} GroupingConsumed(tokens: seq<Token>, pos: nat)
    requires EndsWithEof(tokens) && pos < |tokens| && MatchesAt(tokens, pos, [LeftParen])
    ensures Consumed(GroupingAt(tokens, pos), tokens, pos)
    decreases |tokens| - pos, 0
  {
    var inner := ExpressionAt(tokens, pos + 1);
    ExpressionConsumed(tokens, pos + 1);
    if inner.result.Ok? && Checks(tokens, inner.next, RightParen) {
      JoinGrouping(inner.result.value, tokens, pos, inner.next);
    }
  }
}
