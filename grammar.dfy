/** The expression grammar of jlox/src/parser.rs, stated as functions of the token list
    and a cursor position: what each parsing routine returns, where it leaves the
    cursor and which diagnostics it logs. The class Parser of module Parsing follows
    these functions step by step. */
module Grammar {
  import opened Wrappers
  import opened Tokens
  import opened Ast

  /** `ParseError`: the parser's only error value. The diagnostic itself goes to the
      log when the error is raised. */
  datatype ParseError = Error

  const ExpectExpression: string := "Expect expression."
  const ExpectRightParen: string := "Expect ')' after expression."

  /** What the parser needs of its token list: `peek` indexes the list at the cursor,
      and the cursor stops on the first end-of-input token, so the list must end
      with one. */
  predicate EndsWithEof(tokens: seq<Token>)
  {
    |tokens| > 0 && tokens[|tokens| - 1].kind == Eof
  }

  // ---------------------------------------------------------------------------
  // The cursor.

  /** `is_at_end` with the cursor at `pos`. */
  predicate AtEnd(tokens: seq<Token>, pos: nat): (b: bool)
    requires pos < |tokens|
    ensures EndsWithEof(tokens) && pos == |tokens| - 1 ==> b
  {
    tokens[pos].kind == Eof
  }

  /** `check`: the token at `pos` has kind `kind`, and is not the end of input. */
  predicate Checks(tokens: seq<Token>, pos: nat, kind: TokenType): (b: bool)
    requires pos < |tokens|
    ensures b ==> kind != Eof && tokens[pos].kind == kind
    ensures tokens[pos].kind == kind && kind != Eof ==> b
  {
    !AtEnd(tokens, pos) && tokens[pos].kind == kind
  }

  /** `matches` succeeds at `pos`: one of the listed kinds checks there. */
  predicate MatchesAt(tokens: seq<Token>, pos: nat, kinds: seq<TokenType>): (b: bool)
    requires pos < |tokens|
    ensures b ==> tokens[pos].kind in kinds && Checks(tokens, pos, tokens[pos].kind)
    ensures forall i :: 0 <= i < |kinds| && Checks(tokens, pos, kinds[i]) ==> b
  {
    !AtEnd(tokens, pos) && tokens[pos].kind in kinds
  }

  /** Where `advance` leaves a cursor at `pos`: one token on, unless it is at the end. */
  function Advanced(tokens: seq<Token>, pos: nat): (next: nat)
    requires EndsWithEof(tokens) && pos < |tokens|
    ensures next < |tokens|
    ensures next == pos <==> AtEnd(tokens, pos)
  {
    if AtEnd(tokens, pos) then pos else pos + 1
  }

  // ---------------------------------------------------------------------------
  // Operators.

  /** The kinds each rung of the ladder loops on, in the order the source lists them. */
  const EqualityOps: seq<TokenType> := [TokenType.BangEqual, TokenType.EqualEqual]
  const ComparisonOps: seq<TokenType> := [TokenType.Greater, TokenType.GreaterEqual, TokenType.Less, TokenType.LessEqual]
  const TermOps: seq<TokenType> := [TokenType.Plus, TokenType.Minus]
  const FactorOps: seq<TokenType> := [TokenType.Slash, TokenType.Star]
  const UnaryOps: seq<TokenType> := [TokenType.Bang, TokenType.Minus]

  /** The rung of the ladder a binary operator token belongs to: 1 equality,
      2 comparison, 3 term, 4 factor; 0 for every other kind. */
  function OpLevel(kind: TokenType): (n: nat)
    ensures n <= 4
  {
    if kind in EqualityOps then 1
    else if kind in ComparisonOps then 2
    else if kind in TermOps then 3
    else if kind in FactorOps then 4
    else 0
  }

  /** The rung of the ladder a binary operator sits on. */
  function Level(op: BinaryOp): (n: nat)
    ensures 1 <= n <= 4
  {
    match op
    case EqualEqual | BangEqual => 1
    case Less | LessEqual | Greater | GreaterEqual => 2
    case Plus | Minus => 3
    case Star | Slash => 4
  }

  /** The token kind that spells a binary operator. */
  function BinaryKind(op: BinaryOp): (kind: TokenType)
    ensures OpLevel(kind) == Level(op)
  {
    match op
    case EqualEqual => TokenType.EqualEqual
    case BangEqual => TokenType.BangEqual
    case Less => TokenType.Less
    case LessEqual => TokenType.LessEqual
    case Greater => TokenType.Greater
    case GreaterEqual => TokenType.GreaterEqual
    case Plus => TokenType.Plus
    case Minus => TokenType.Minus
    case Star => TokenType.Star
    case Slash => TokenType.Slash
  }

  /** `token_op_to_expr_binops`: the operator a binary operator token stands for. The
      source panics on any other kind; every call site has just matched one of the
      ten, which the precondition records. */
  function BinaryOpOf(kind: TokenType): (op: BinaryOp)
    requires OpLevel(kind) > 0
    ensures BinaryKind(op) == kind && Level(op) == OpLevel(kind)
  {
    match kind
    case BangEqual => BinaryOp.BangEqual
    case EqualEqual => BinaryOp.EqualEqual
    case Greater => BinaryOp.Greater
    case GreaterEqual => BinaryOp.GreaterEqual
    case Less => BinaryOp.Less
    case LessEqual => BinaryOp.LessEqual
    case Slash => BinaryOp.Slash
    case Star => BinaryOp.Star
    case Minus => BinaryOp.Minus
    case Plus => BinaryOp.Plus
  }

  /** The token kind that spells a unary operator. */
  function UnaryKind(op: UnaryOp): (kind: TokenType)
    ensures kind in UnaryOps
  {
    match op
    case Minus => TokenType.Minus
    case Bang => TokenType.Bang
  }

  /** `token_op_to_expr_unops`: the operator a prefix operator token stands for; the
      source panics on any kind but BANG and MINUS. */
  function UnaryOpOf(kind: TokenType): (op: UnaryOp)
    requires kind in UnaryOps
    ensures UnaryKind(op) == kind
  {
    match kind
    case Bang => UnaryOp.Bang
    case Minus => UnaryOp.Minus
  }

  // ---------------------------------------------------------------------------
  // The trees the ladder builds.

  /** How tightly a tree binds: the rung of its operator for a binary tree, 5 for a
      prefix operator, 6 for a literal or a parenthesised expression. */
  function Prec(e: Expr): (n: nat)
    ensures 1 <= n <= 6
  {
    match e
    case Binary(_, op, _) => Level(op)
    case Unary(_, _) => 5
    case _ => 6
  }

  /** The trees the ladder can build: the left operand of an equality, term or factor
      binds at least as tightly as the operator and its right operand strictly more
      (left association); a comparison is the other way round (right association); a
      prefix operator applies to a prefix operator or a primary. */
  predicate Canonical(e: Expr)
  {
    match e
    case Literal(_) => true
    case Grouping(inner) => Canonical(inner)
    case Unary(_, operand) => Canonical(operand) && Prec(operand) >= 5
    case Binary(left, op, right) =>
      Canonical(left) && Canonical(right)
      && if Level(op) == 2 then Prec(left) > 2 && Prec(right) >= 2
         else Prec(left) >= Level(op) && Prec(right) > Level(op)
  }

  // ---------------------------------------------------------------------------
  // What a parsing routine does.

  /** The result a parsing routine returns, where it leaves the cursor and what it
      adds to the diagnostics log. */
  datatype Outcome = Outcome(result: Result<Expr, ParseError>, next: nat, logged: seq<Report>)

  /** What every parsing routine guarantees, started at `pos`: the cursor stays on the
      list and does not move back, and a success has consumed at least one token and
      logged nothing. */
  predicate Advances(tokens: seq<Token>, pos: nat, o: Outcome)
  {
    pos <= o.next < |tokens| && (o.result.Ok? ==> pos < o.next && o.logged == [])
  }

  /** `expression`. */
  function ExpressionAt(tokens: seq<Token>, pos: nat): (o: Outcome)
    requires EndsWithEof(tokens) && pos < |tokens|
    ensures Advances(tokens, pos, o)
    decreases |tokens| - pos, 7
  {
    EqualityAt(tokens, pos)
  }

  /** `equality`: a comparison, then the loop over `!=` and `==`. */
  function EqualityAt(tokens: seq<Token>, pos: nat): (o: Outcome)
    requires EndsWithEof(tokens) && pos < |tokens|
    ensures Advances(tokens, pos, o)
    decreases |tokens| - pos, 6
  {
    var first := ComparisonAt(tokens, pos);
    if first.result.Err? then first
    else EqualityLoop(tokens, first.result.value, first.next)
  }

  /** The loop of `equality` with `left` built so far and the cursor at `pos`: each
      operator found makes the tree so far the left operand of a new node. */
  function EqualityLoop(tokens: seq<Token>, left: Expr, pos: nat): (o: Outcome)
    requires EndsWithEof(tokens) && pos < |tokens|
    ensures pos <= o.next < |tokens| && (o.result.Ok? ==> o.logged == [])
    decreases |tokens| - pos, 6
  {
    if MatchesAt(tokens, pos, EqualityOps) then
      var op := BinaryOpOf(tokens[pos].kind);
      var right := ComparisonAt(tokens, pos + 1);
      if right.result.Err? then right
      else EqualityLoop(tokens, Binary(left, op, right.result.value), right.next)
    else
      Outcome(Ok(left), pos, [])
  }

  /** `comparison`: a term, then the loop over `>`, `>=`, `<` and `<=`, whose right
      operand is again a whole comparison. */
  function ComparisonAt(tokens: seq<Token>, pos: nat): (o: Outcome)
    requires EndsWithEof(tokens) && pos < |tokens|
    ensures Advances(tokens, pos, o)
    decreases |tokens| - pos, 5
  {
    var first := TermAt(tokens, pos);
    if first.result.Err? then first
    else ComparisonLoop(tokens, first.result.value, first.next)
  }

  /** The loop of `comparison`. It runs its body at most once: the comparison parsed as
      right operand stops before any comparison operator. */
  function ComparisonLoop(tokens: seq<Token>, left: Expr, pos: nat): (o: Outcome)
    requires EndsWithEof(tokens) && pos < |tokens|
    ensures pos <= o.next < |tokens| && (o.result.Ok? ==> o.logged == [])
    decreases |tokens| - pos, 5
  {
    if MatchesAt(tokens, pos, ComparisonOps) then
      var op := BinaryOpOf(tokens[pos].kind);
      var right := ComparisonAt(tokens, pos + 1);
      if right.result.Err? then right
      else ComparisonLoop(tokens, Binary(left, op, right.result.value), right.next)
    else
      Outcome(Ok(left), pos, [])
  }

  /** `term`: a factor, then the loop over `+` and `-`. */
  function TermAt(tokens: seq<Token>, pos: nat): (o: Outcome)
    requires EndsWithEof(tokens) && pos < |tokens|
    ensures Advances(tokens, pos, o)
    decreases |tokens| - pos, 4
  {
    var first := FactorAt(tokens, pos);
    if first.result.Err? then first
    else TermLoop(tokens, first.result.value, first.next)
  }

  function TermLoop(tokens: seq<Token>, left: Expr, pos: nat): (o: Outcome)
    requires EndsWithEof(tokens) && pos < |tokens|
    ensures pos <= o.next < |tokens| && (o.result.Ok? ==> o.logged == [])
    decreases |tokens| - pos, 4
  {
    if MatchesAt(tokens, pos, TermOps) then
      var op := BinaryOpOf(tokens[pos].kind);
      var right := FactorAt(tokens, pos + 1);
      if right.result.Err? then right
      else TermLoop(tokens, Binary(left, op, right.result.value), right.next)
    else
      Outcome(Ok(left), pos, [])
  }

  /** `factor`: a unary, then the loop over `/` and `*`. */
  function FactorAt(tokens: seq<Token>, pos: nat): (o: Outcome)
    requires EndsWithEof(tokens) && pos < |tokens|
    ensures Advances(tokens, pos, o)
    decreases |tokens| - pos, 3
  {
    var first := UnaryAt(tokens, pos);
    if first.result.Err? then first
    else FactorLoop(tokens, first.result.value, first.next)
  }

  function FactorLoop(tokens: seq<Token>, left: Expr, pos: nat): (o: Outcome)
    requires EndsWithEof(tokens) && pos < |tokens|
    ensures pos <= o.next < |tokens| && (o.result.Ok? ==> o.logged == [])
    decreases |tokens| - pos, 3
  {
    if MatchesAt(tokens, pos, FactorOps) then
      var op := BinaryOpOf(tokens[pos].kind);
      var right := UnaryAt(tokens, pos + 1);
      if right.result.Err? then right
      else FactorLoop(tokens, Binary(left, op, right.result.value), right.next)
    else
      Outcome(Ok(left), pos, [])
  }

  /** `unary`: a prefix operator applied to a unary, or a primary. */
  function UnaryAt(tokens: seq<Token>, pos: nat): (o: Outcome)
    requires EndsWithEof(tokens) && pos < |tokens|
    ensures Advances(tokens, pos, o)
    decreases |tokens| - pos, 2
  {
    if MatchesAt(tokens, pos, UnaryOps) then
      var op := UnaryOpOf(tokens[pos].kind);
      var operand := UnaryAt(tokens, pos + 1);
      if operand.result.Err? then operand
      else Outcome(Ok(Unary(op, operand.result.value)), operand.next, [])
    else
      PrimaryAt(tokens, pos)
  }

  /** `primary`: `false`, `true`, `nil`, a string or number literal, or a parenthesised
      expression; anything else is reported as "Expect expression." at the current
      token without moving the cursor. */
  function PrimaryAt(tokens: seq<Token>, pos: nat): (o: Outcome)
    requires EndsWithEof(tokens) && pos < |tokens|
    ensures Advances(tokens, pos, o)
    decreases |tokens| - pos, 1
  {
    if MatchesAt(tokens, pos, [TokenType.False]) then
      Outcome(Ok(Expr.Literal(LiteralValue.False)), pos + 1, [])
    else if MatchesAt(tokens, pos, [TokenType.True]) then
      Outcome(Ok(Expr.Literal(LiteralValue.True)), pos + 1, [])
    else if MatchesAt(tokens, pos, [TokenType.Nil]) then
      Outcome(Ok(Expr.Literal(LiteralValue.Nil)), pos + 1, [])
    else if MatchesAt(tokens, pos, [TokenType.String]) || MatchesAt(tokens, pos, [TokenType.Number]) then
      PayloadAt(tokens, pos)
    else if MatchesAt(tokens, pos, [LeftParen]) then
      GroupingAt(tokens, pos)
    else
      Outcome(Err(Error), pos, [ParseErrorReport(tokens[pos], ExpectExpression)])
  }

  /** The STRING and NUMBER branches of `primary`: the literal the token carries, or an
      error with no diagnostic when the payload is not the one its kind calls for. */
  function PayloadAt(tokens: seq<Token>, pos: nat): (o: Outcome)
    requires EndsWithEof(tokens) && pos < |tokens|
    requires MatchesAt(tokens, pos, [TokenType.String]) || MatchesAt(tokens, pos, [TokenType.Number])
    ensures Advances(tokens, pos, o)
  {
    if MatchesAt(tokens, pos, [TokenType.String]) then
      match tokens[pos].literal
      case Some(Str(text)) => Outcome(Ok(Expr.Literal(LiteralValue.String(text))), pos + 1, [])
      case _ => Outcome(Err(Error), pos + 1, [])
    else
      match tokens[pos].literal
      case Some(Number(value)) => Outcome(Ok(Expr.Literal(LiteralValue.Number(value))), pos + 1, [])
      case _ => Outcome(Err(Error), pos + 1, [])
  }

  /** The parenthesis branch of `primary`, with the cursor on `(`: an expression, then
      `consume` of the closing parenthesis. */
  function GroupingAt(tokens: seq<Token>, pos: nat): (o: Outcome)
    requires EndsWithEof(tokens) && pos < |tokens| && MatchesAt(tokens, pos, [LeftParen])
    ensures Advances(tokens, pos, o)
    decreases |tokens| - pos, 0
  {
    var inner := ExpressionAt(tokens, pos + 1);
    if inner.result.Err? then inner
    else if Checks(tokens, inner.next, RightParen) then
      Outcome(Ok(Grouping(inner.result.value)), inner.next + 1, [])
    else
      Outcome(Err(Error), inner.next, [ParseErrorReport(tokens[inner.next], ExpectRightParen)])
  }

  /** `parse`: the expression at the start of the list, if it parses. Tokens after it
      are left alone. */
  function Parse(tokens: seq<Token>): (o: Outcome)
    requires EndsWithEof(tokens)
    ensures Advances(tokens, 0, o)
  {
    ExpressionAt(tokens, 0)
  }

  // ---------------------------------------------------------------------------
  // Error recovery.

  /** The statement keywords `synchronize` stops in front of. */
  predicate StartsStatement(kind: TokenType)
  {
    match kind
    case Class | Fun | Var | For | If | While | Print | Return => true
    case _ => false
  }

  /** A place the loop of `synchronize` stops at: the end of input, just after a
      semicolon, or just before a statement keyword. */
  predicate Boundary(tokens: seq<Token>, pos: nat)
    requires 0 < pos < |tokens|
  {
    AtEnd(tokens, pos) || tokens[pos - 1].kind == Semicolon || StartsStatement(tokens[pos].kind)
  }

  /** The loop of `synchronize`, from `pos`. */
  function SkipToBoundary(tokens: seq<Token>, pos: nat): (stop: nat)
    requires EndsWithEof(tokens) && 0 < pos < |tokens|
    ensures pos <= stop < |tokens|
    decreases |tokens| - pos
  {
    if Boundary(tokens, pos) then pos else SkipToBoundary(tokens, pos + 1)
  }

  /** Where `synchronize` leaves a cursor at `pos`: one token on, then on to the next
      boundary. At `pos` 0 on the end-of-input token the source's `previous` would
      index before the list; the precondition excludes that. */
  function Synchronized(tokens: seq<Token>, pos: nat): (stop: nat)
    requires EndsWithEof(tokens) && pos < |tokens| && (pos > 0 || !AtEnd(tokens, pos))
    ensures 0 < stop < |tokens| && pos <= stop
    ensures stop == pos ==> AtEnd(tokens, pos)
  {
    SkipToBoundary(tokens, Advanced(tokens, pos))
  }
}
