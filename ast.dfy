/**
  Expression trees. The four node kinds form one inductive datatype, so every
  tree is finite and acyclic and every child is owned by its parent alone.
  The visitor double dispatch becomes a record of one operation per node kind
  and `Accept`, which picks the operation that matches the node.
*/
module Ast {
  import opened Tokens

  datatype Expr =
    | Binary(left: Expr, operator: Token, right: Expr)
    | Grouping(expression: Expr)
    | Literal(value: Value)
    | Unary(operator: Token, right: Expr)

  /** One operation per node kind; each receives the fields of the node visited. */
  datatype Visitor<T> = Visitor(
    visitBinary: (Expr, Token, Expr) -> T,
    visitGrouping: Expr -> T,
    visitLiteral: Value -> T,
    visitUnary: (Token, Expr) -> T)

  /** Dispatches to the one operation of `v` that matches the kind of `e`, passing its fields. */
  function Accept<T>(e: Expr, v: Visitor<T>): (r: T)
    ensures e.Binary? ==> r == v.visitBinary(e.left, e.operator, e.right)
    ensures e.Grouping? ==> r == v.visitGrouping(e.expression)
    ensures e.Literal? ==> r == v.visitLiteral(e.value)
    ensures e.Unary? ==> r == v.visitUnary(e.operator, e.right)
  {
    match e
    case Binary(left, operator, right) => v.visitBinary(left, operator, right)
    case Grouping(expression) => v.visitGrouping(expression)
    case Literal(value) => v.visitLiteral(value)
    case Unary(operator, right) => v.visitUnary(operator, right)
  }

  /** Number of nodes; every child has fewer than its parent. */
  function Size(e: Expr): (n: nat)
    ensures n >= 1
  {
    match e
    case Binary(left, _, right) => Size(left) + Size(right) + 1
    case Grouping(expression) => Size(expression) + 1
    case Literal(_) => 1
    case Unary(_, right) => Size(right) + 1
  }
}
