/** What the ladder of module Grammar guarantees about every outcome: the trees it
    builds, where it stops, and the diagnostics it logs. */
module GrammarFacts {
  import opened Wrappers
  import opened Tokens
  import opened Ast
  import opened Grammar

  /** A STRING or NUMBER token whose payload is not the one its kind calls for. */
  predicate Mismatched(token: Token)
  {
    (token.kind == TokenType.String && !(token.literal.Some? && token.literal.value.Str?))
    || (token.kind == TokenType.Number && !(token.literal.Some? && token.literal.value.Number?))
  }

  /** The diagnostics of a failed outcome: none when parsing hit a token with a
      mismatched payload, and otherwise exactly one, naming the token the cursor
      stopped on. */
  predicate Diagnosed(tokens: seq<Token>, o: Outcome)
  {
    o.next < |tokens|
    && ((o.logged == [] && 0 < o.next && Mismatched(tokens[o.next - 1]))
        || o.logged == [ParseErrorReport(tokens[o.next], ExpectExpression)]
        || o.logged == [ParseErrorReport(tokens[o.next], ExpectRightParen)])
  }

  /** A successful outcome at rung `level` (1 equality … 4 factor, 5 unary,
      6 primary): a tree the ladder can build, binding at least as tightly as the
      rung, followed by a token that is no operator of the rung or a tighter one. */
  predicate Built(tokens: seq<Token>, o: Outcome, level: nat)
  {
    o.result.Ok? && o.next < |tokens|
    && Canonical(o.result.value) && Prec(o.result.value) >= level
    && OpLevel(tokens[o.next].kind) < level
  }

  /** What a parsing routine at rung `level` guarantees, started at `pos`: the cursor
      stays on the list and does not move back; a success logs nothing and is built
      as the rung demands; a failure is diagnosed. */
  predicate Behaved(tokens: seq<Token>, pos: nat, o: Outcome, level: nat)
  {
    pos <= o.next < |tokens|
    && (o.result.Ok? ==> o.logged == [] && Built(tokens, o, level))
    && (o.result.Err? ==> Diagnosed(tokens, o))
  }

  /** `parse`: a success is a tree the ladder can build, followed by a token that is
      not a binary operator; a failure carries the one diagnostic of the token where
      parsing stopped, or none after a mismatched payload. */
  lemma ParseBehaved(tokens: seq<Token>)
    requires EndsWithEof(tokens)
    ensures Behaved(tokens, 0, Parse(tokens), 1)
  {
    ExpressionBehaved(tokens, 0);
  }

  lemma {:induction false} ExpressionBehaved(tokens: seq<Token>, pos: nat)
    requires EndsWithEof(tokens) && pos < |tokens|
    ensures Behaved(tokens, pos, ExpressionAt(tokens, pos), 1)
    decreases |tokens| - pos, 7
  {
    EqualityBehaved(tokens, pos);
  }

  lemma {:induction false} EqualityBehaved(tokens: seq<Token>, pos: nat)
    requires EndsWithEof(tokens) && pos < |tokens|
    ensures Behaved(tokens, pos, EqualityAt(tokens, pos), 1)
    decreases |tokens| - pos, 6
  {
    ComparisonBehaved(tokens, pos);
    var first := ComparisonAt(tokens, pos);
    if first.result.Ok? {
      EqualityLoopBehaved(tokens, first.result.value, first.next);
    }
  }

  lemma {:induction false} EqualityLoopBehaved(tokens: seq<Token>, left: Expr, pos: nat)
    requires EndsWithEof(tokens) && pos < |tokens|
    requires Canonical(left) && OpLevel(tokens[pos].kind) < 2
    ensures Behaved(tokens, pos, EqualityLoop(tokens, left, pos), 1)
    decreases |tokens| - pos, 6
  {
    if MatchesAt(tokens, pos, EqualityOps) {
      ComparisonBehaved(tokens, pos + 1);
      var right := ComparisonAt(tokens, pos + 1);
      if right.result.Ok? {
        EqualityLoopBehaved(tokens, Binary(left, BinaryOpOf(tokens[pos].kind), right.result.value), right.next);
      }
    }
  }

  lemma {:induction false} ComparisonBehaved(tokens: seq<Token>, pos: nat)
    requires EndsWithEof(tokens) && pos < |tokens|
    ensures Behaved(tokens, pos, ComparisonAt(tokens, pos), 2)
    decreases |tokens| - pos, 5
  {
    TermBehaved(tokens, pos);
    var first := TermAt(tokens, pos);
    if first.result.Ok? {
      ComparisonLoopBehaved(tokens, first.result.value, first.next);
    }
  }

  /** The loop of `comparison` builds a right-nested chain: its left operand is a
      term, so it takes its body at most once. */
  lemma {:induction false} ComparisonLoopBehaved(tokens: seq<Token>, left: Expr, pos: nat)
    requires EndsWithEof(tokens) && pos < |tokens|
    requires Canonical(left) && Prec(left) >= 2 && OpLevel(tokens[pos].kind) < 3
    requires OpLevel(tokens[pos].kind) == 2 ==> Prec(left) >= 3
    ensures Behaved(tokens, pos, ComparisonLoop(tokens, left, pos), 2)
    decreases |tokens| - pos, 5
  {
    if MatchesAt(tokens, pos, ComparisonOps) {
      ComparisonBehaved(tokens, pos + 1);
      var right := ComparisonAt(tokens, pos + 1);
      if right.result.Ok? {
        ComparisonLoopBehaved(tokens, Binary(left, BinaryOpOf(tokens[pos].kind), right.result.value), right.next);
      }
    }
  }

  lemma {:induction false} TermBehaved(tokens: seq<Token>, pos: nat)
    requires EndsWithEof(tokens) && pos < |tokens|
    ensures Behaved(tokens, pos, TermAt(tokens, pos), 3)
    decreases |tokens| - pos, 4
  {
    FactorBehaved(tokens, pos);
    var first := FactorAt(tokens, pos);
    if first.result.Ok? {
      TermLoopBehaved(tokens, first.result.value, first.next);
    }
  }

  lemma {:induction false} TermLoopBehaved(tokens: seq<Token>, left: Expr, pos: nat)
    requires EndsWithEof(tokens) && pos < |tokens|
    requires Canonical(left) && Prec(left) >= 3 && OpLevel(tokens[pos].kind) < 4
    ensures Behaved(tokens, pos, TermLoop(tokens, left, pos), 3)
    decreases |tokens| - pos, 4
  {
    if MatchesAt(tokens, pos, TermOps) {
      FactorBehaved(tokens, pos + 1);
      var right := FactorAt(tokens, pos + 1);
      if right.result.Ok? {
        TermLoopBehaved(tokens, Binary(left, BinaryOpOf(tokens[pos].kind), right.result.value), right.next);
      }
    }
  }

  lemma {:induction false} FactorBehaved(tokens: seq<Token>, pos: nat)
    requires EndsWithEof(tokens) && pos < |tokens|
    ensures Behaved(tokens, pos, FactorAt(tokens, pos), 4)
    decreases |tokens| - pos, 3
  {
    UnaryBehaved(tokens, pos);
    var first := UnaryAt(tokens, pos);
    if first.result.Ok? {
      FactorLoopBehaved(tokens, first.result.value, first.next);
    }
  }

  lemma {:induction false} FactorLoopBehaved(tokens: seq<Token>, left: Expr, pos: nat)
    requires EndsWithEof(tokens) && pos < |tokens|
    requires Canonical(left) && Prec(left) >= 4
    ensures Behaved(tokens, pos, FactorLoop(tokens, left, pos), 4)
    decreases |tokens| - pos, 3
  {
    if MatchesAt(tokens, pos, FactorOps) {
      UnaryBehaved(tokens, pos + 1);
      var right := UnaryAt(tokens, pos + 1);
      if right.result.Ok? {
        FactorLoopBehaved(tokens, Binary(left, BinaryOpOf(tokens[pos].kind), right.result.value), right.next);
      }
    }
  }

  lemma {:induction false} UnaryBehaved(tokens: seq<Token>, pos: nat)
    requires EndsWithEof(tokens) && pos < |tokens|
    ensures Behaved(tokens, pos, UnaryAt(tokens, pos), 5)
    decreases |tokens| - pos, 2
  {
    if MatchesAt(tokens, pos, UnaryOps) {
      UnaryBehaved(tokens, pos + 1);
    } else {
      PrimaryBehaved(tokens, pos);
    }
  }

  lemma {:induction false} PrimaryBehaved(tokens: seq<Token>, pos: nat)
    requires EndsWithEof(tokens) && pos < |tokens|
    ensures Behaved(tokens, pos, PrimaryAt(tokens, pos), 6)
    decreases |tokens| - pos, 1
  {
    if MatchesAt(tokens, pos, [TokenType.False]) || MatchesAt(tokens, pos, [TokenType.True])
       || MatchesAt(tokens, pos, [TokenType.Nil]) {
    } else if MatchesAt(tokens, pos, [TokenType.String]) || MatchesAt(tokens, pos, [TokenType.Number]) {
      PayloadBehaved(tokens, pos);
    } else if MatchesAt(tokens, pos, [LeftParen]) {
      GroupingBehaved(tokens, pos);
    }
  }

  lemma PayloadBehaved(tokens: seq<Token>, pos: nat)
    requires EndsWithEof(tokens) && pos < |tokens|
    requires MatchesAt(tokens, pos, [TokenType.String]) || MatchesAt(tokens, pos, [TokenType.Number])
    ensures Behaved(tokens, pos, PayloadAt(tokens, pos), 6)
  {
  }

  lemma {:induction false} GroupingBehaved(tokens: seq<Token>, pos: nat)
    requires EndsWithEof(tokens) && pos < |tokens| && MatchesAt(tokens, pos, [LeftParen])
    ensures Behaved(tokens, pos, GroupingAt(tokens, pos), 6)
    decreases |tokens| - pos, 0
  {
    ExpressionBehaved(tokens, pos + 1);
  }

  // ---------------------------------------------------------------------------
  // Error recovery.

  /** The loop of `synchronize` stops at the first boundary from `pos` on. */
  lemma {:induction false} SkipFindsBoundary(tokens: seq<Token>, pos: nat)
    requires EndsWithEof(tokens) && 0 < pos < |tokens|
    ensures var stop := SkipToBoundary(tokens, pos);
      Boundary(tokens, stop) && forall i :: pos <= i < stop ==> !Boundary(tokens, i)
    decreases |tokens| - pos
  {
    if !Boundary(tokens, pos) {
      SkipFindsBoundary(tokens, pos + 1);
    }
  }

  /** `synchronize` moves past the token it starts on, unless that is the end of
      input, and stops at the first boundary after it: the end of input, a token
      after a semicolon, or a statement keyword. */
  lemma SynchronizeStops(tokens: seq<Token>, pos: nat)
    requires EndsWithEof(tokens) && pos < |tokens| && (pos > 0 || !AtEnd(tokens, pos))
    ensures var stop := Synchronized(tokens, pos);
      0 < stop < |tokens|
      && (stop == pos <==> AtEnd(tokens, pos))
      && Boundary(tokens, stop)
      && forall i :: pos < i < stop ==> !Boundary(tokens, i)
  {
    SkipFindsBoundary(tokens, Advanced(tokens, pos));
  }
}
