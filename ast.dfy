/** The expression tree the parser builds (jlox/src/expr.rs). Every child is owned by
    exactly one node: an inductive datatype is a finite tree with no sharing. */
module Ast {
  import Tokens

  datatype Expr =
    | Literal(value: LiteralValue)
    | Unary(unaryOp: UnaryOp, operand: Expr)
    | Binary(left: Expr, op: BinaryOp, right: Expr)
    | Grouping(inner: Expr)

  /** `expr::Literal`; the number payload is the opaque value the token carried. */
  datatype LiteralValue =
    | Number(value: Tokens.NumberValue)
    | String(text: string)
    | True
    | False
    | Nil

  datatype BinaryOp =
    | EqualEqual | BangEqual
    | Less | LessEqual | Greater | GreaterEqual
    | Plus | Minus | Star | Slash

  datatype UnaryOp = Minus | Bang
}
