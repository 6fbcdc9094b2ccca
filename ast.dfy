/** The expression tree the parser builds. */
module Ast {
  import opened Tokens

  /** A closed tree: each node owns its children. */
  datatype Expr =
    | Literal(value: Value)
    | Unary(op: Token, right: Expr)
    | Binary(left: Expr, op: Token, right: Expr)
    | Grouping(expression: Expr)
}
