/**
  The Lisp-like printing of expression trees: every operator node becomes
  "(name part part ...)", a grouping "(group part)", and a literal its bare
  text. `show` is the text of a number, which the source leaves to the
  64-bit float's own formatting.
*/
module AstPrinter {
  import opened Tokens
  import opened Ast

  /** The parts, each preceded by one space. */
  function Spaced(parts: seq<string>): string {
    if parts == [] then "" else Spaced(parts[..|parts| - 1]) + " " + parts[|parts| - 1]
  }

  /** "(", the name, each part after a space, then ")". */
  function Parenthesized(name: string, parts: seq<string>): string {
    "(" + name + Spaced(parts) + ")"
  }

  function VisitLiteral(value: Value, show: real -> string): string {
    match value
    case Str(s) => s
    case Number(n) => show(n)
    case Bool(b) => if b then "true" else "false"
    case Nil => "nil"
  }

  /** The printed form of a tree. */
  function Print(e: Expr, show: real -> string): string
    decreases Size(e), 1
  {
    match e
    case Binary(left, operator, right) => VisitBinary(left, operator, right, show)
    case Grouping(expression) => VisitGrouping(expression, show)
    case Literal(value) => VisitLiteral(value, show)
    case Unary(operator, right) => VisitUnary(operator, right, show)
  }

  function VisitBinary(left: Expr, operator: Token, right: Expr, show: real -> string): string
    decreases Size(left) + Size(right) + 1, 0
  {
    Parenthesized(operator.lexeme, [Print(left, show), Print(right, show)])
  }

  function VisitGrouping(expression: Expr, show: real -> string): string
    decreases Size(expression) + 1, 0
  {
    Parenthesized("group", [Print(expression, show)])
  }

  function VisitUnary(operator: Token, right: Expr, show: real -> string): string
    decreases Size(right) + 1, 0
  {
    Parenthesized(operator.lexeme, [Print(right, show)])
  }

  /** The printer as a visitor: the four visit operations above. */
  function AsVisitor(show: real -> string): Visitor<string> {
    Ast.Visitor((l, op, r) => VisitBinary(l, op, r, show),
                x => VisitGrouping(x, show),
                v => VisitLiteral(v, show),
                (op, r) => VisitUnary(op, r, show))
  }

  /** The printed forms of several trees, in order. */
  function Prints(es: seq<Expr>, show: real -> string): (ps: seq<string>)
    ensures |ps| == |es|
    ensures forall i :: 0 <= i < |es| ==> ps[i] == Print(es[i], show)
  {
    if es == [] then [] else Prints(es[..|es| - 1], show) + [Print(es[|es| - 1], show)]
  }

  /**
    Builds "(name e1 e2 ...)" by appending, for each tree in turn, a space
    and the tree's printed form.
  */
  method Parenthesize(name: string, exprs: seq<Expr>, show: real -> string) returns (s: string)
    ensures s == Parenthesized(name, Prints(exprs, show))
  {
    s := "(" + name;
    for i := 0 to |exprs|
      invariant s == "(" + name + Spaced(Prints(exprs[..i], show))
    {
      assert exprs[..i + 1][..i] == exprs[..i];
      s := s + " " + Print(exprs[i], show);
    }
    assert exprs[..|exprs|] == exprs;
    s := s + ")";
  }
}
