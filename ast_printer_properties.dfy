/** What the printed form of a tree looks like, and what it does and does not determine. */
module AstPrinterProperties {
  import Tokens
  import opened Ast
  import opened AstPrinter

  /** Printing is accepting the printer's visitor. */
  lemma PrintIsAccept(e: Expr, show: real -> string)
    ensures Print(e, show) == Accept(e, AsVisitor(show))
  {
  }

  /** One and two parts, spelled out. */
  lemma ParenthesizedForm(name: string, a: string, b: string)
    ensures Parenthesized(name, [a]) == "(" + name + " " + a + ")"
    ensures Parenthesized(name, [a, b]) == "(" + name + " " + (a + " " + b) + ")"
  {
    assert [a, b][..1] == [a];
    assert [a][..0] == [];
    assert Spaced([a]) == " " + a;
    assert Spaced([a, b]) == " " + a + " " + b;
  }

  /** Each node kind's printed form in terms of its children's. */
  lemma PrintForms(e: Expr, show: real -> string)
    ensures e.Binary? ==>
              Print(e, show) == "(" + e.operator.lexeme + " " + (Print(e.left, show) + " " + Print(e.right, show)) + ")"
    ensures e.Grouping? ==> Print(e, show) == "(" + "group" + " " + Print(e.expression, show) + ")"
    ensures e.Unary? ==> Print(e, show) == "(" + e.operator.lexeme + " " + Print(e.right, show) + ")"
    ensures e.Literal? && e.value.Str? ==> Print(e, show) == e.value.s
    ensures e.Literal? && e.value.Nil? ==> Print(e, show) == "nil"
    ensures e.Literal? && e.value.Bool? ==> Print(e, show) == if e.value.b then "true" else "false"
    ensures e.Literal? && e.value.Number? ==> Print(e, show) == show(e.value.n)
  {
    match e
    case Binary(left, operator, right) =>
      ParenthesizedForm(operator.lexeme, Print(left, show), Print(right, show));
    case Grouping(expression) =>
      ParenthesizedForm("group", Print(expression, show), "");
    case Unary(operator, right) =>
      ParenthesizedForm(operator.lexeme, Print(right, show), "");
    case Literal(_) =>
  }

  /**
    The example tree `-123 * (45.67)` prints as "(* (- 123) (group 45.67))"
    when numbers print as their shortest decimal text.
  */
  lemma PrintExample(show: real -> string)
    requires show(123.0) == "123" && show(45.67) == "45.67"
    ensures Print(Binary(Unary(Tokens.Token(Tokens.Minus, "-", Tokens.Value.Nil, 1), Literal(Tokens.Value.Number(123.0))),
                         Tokens.Token(Tokens.Star, "*", Tokens.Value.Nil, 1),
                         Grouping(Literal(Tokens.Value.Number(45.67)))), show)
            == "(* (- 123) (group 45.67))"
  {
    assert "(" + "*" + " " + ("(- 123)" + " " + "(group 45.67)") + ")" == "(* (- 123) (group 45.67))";
    var neg := Unary(Tokens.Token(Tokens.Minus, "-", Tokens.Value.Nil, 1), Literal(Tokens.Value.Number(123.0)));
    var grp := Grouping(Literal(Tokens.Value.Number(45.67)));
    var a, b := Print(neg, show), Print(grp, show);
    NegatedExample(show);
    GroupedExample(show);
    PrintForms(Binary(neg, Tokens.Token(Tokens.Star, "*", Tokens.Value.Nil, 1), grp), show);
  }

  lemma NegatedExample(show: real -> string)
    requires show(123.0) == "123"
    ensures Print(Unary(Tokens.Token(Tokens.Minus, "-", Tokens.Value.Nil, 1), Literal(Tokens.Value.Number(123.0))), show)
            == "(- 123)"
  {
    PrintForms(Unary(Tokens.Token(Tokens.Minus, "-", Tokens.Value.Nil, 1), Literal(Tokens.Value.Number(123.0))), show);
  }

  lemma GroupedExample(show: real -> string)
    requires show(45.67) == "45.67"
    ensures Print(Grouping(Literal(Tokens.Value.Number(45.67))), show) == "(group 45.67)"
  {
    PrintForms(Grouping(Literal(Tokens.Value.Number(45.67))), show);
  }

  /**
    Printing does not determine the tree: a string literal prints without
    quotes, so it can print exactly as nil, a boolean or a number does.
  */
  lemma StringsPrintBare(show: real -> string, n: real)
    ensures Print(Literal(Tokens.Value.Str("nil")), show) == Print(Literal(Tokens.Value.Nil), show)
    ensures Print(Literal(Tokens.Value.Str("true")), show) == Print(Literal(Tokens.Value.Bool(true)), show)
    ensures Print(Literal(Tokens.Value.Str(show(n))), show) == Print(Literal(Tokens.Value.Number(n)), show)
  {
  }

  // ---------------------------------------------------------------------
  // Balanced parentheses
  // ---------------------------------------------------------------------

  /** How often `c` occurs in `s`. */
  function Count(s: string, c: char): nat {
    if s == [] then 0 else Count(s[..|s| - 1], c) + (if s[|s| - 1] == c then 1 else 0)
  }

  lemma {:induction false} CountConcat(a: string, b: string, c: char)
    ensures Count(a + b, c) == Count(a, c) + Count(b, c)
    decreases |b|
  {
    if b != [] {
      assert (a + b)[..|a + b| - 1] == a + b[..|b| - 1];
      assert (a + b)[|a + b| - 1] == b[|b| - 1];
      CountConcat(a, b[..|b| - 1], c);
    } else {
      assert a + b == a;
    }
  }

  /** Text with no parenthesis in it. */
  predicate NoParens(t: string) {
    forall i :: 0 <= i < |t| ==> t[i] != '(' && t[i] != ')'
  }

  lemma {:induction false} NoParensCount(t: string)
    requires NoParens(t)
    ensures Count(t, '(') == 0 && Count(t, ')') == 0
    decreases |t|
  {
    if t != [] {
      NoParensCount(t[..|t| - 1]);
    }
  }

  /** Every operator lexeme and literal text of the tree is free of parentheses. */
  predicate Plain(e: Expr, show: real -> string) {
    match e
    case Binary(left, operator, right) => NoParens(operator.lexeme) && Plain(left, show) && Plain(right, show)
    case Grouping(expression) => Plain(expression, show)
    case Literal(value) => NoParens(VisitLiteral(value, show))
    case Unary(operator, right) => NoParens(operator.lexeme) && Plain(right, show)
  }

  /** Opening and closing parentheses balance in the printed form of a plain tree. */
  lemma {:induction false} Balanced(e: Expr, show: real -> string)
    requires Plain(e, show)
    ensures Count(Print(e, show), '(') == Count(Print(e, show), ')')
  {
    match e
    case Binary(left, operator, right) =>
      Balanced(left, show);
      Balanced(right, show);
      CountJoin(Print(left, show), Print(right, show));
      WrappedBalanced(operator.lexeme, Print(left, show) + " " + Print(right, show));
      PrintForms(e, show);
    case Grouping(expression) =>
      Balanced(expression, show);
      WrappedBalanced("group", Print(expression, show));
      PrintForms(e, show);
    case Unary(operator, right) =>
      Balanced(right, show);
      WrappedBalanced(operator.lexeme, Print(right, show));
      PrintForms(e, show);
    case Literal(value) =>
      NoParensCount(VisitLiteral(value, show));
  }

  /** Wrapping a balanced text as "(name text)" keeps it balanced when `name` has no parenthesis. */
  lemma WrappedBalanced(name: string, body: string)
    requires NoParens(name) && Count(body, '(') == Count(body, ')')
    ensures Count("(" + name + " " + body + ")", '(') == Count("(" + name + " " + body + ")", ')')
  {
    NoParensCount(name);
    CountWrapped(name, body);
  }

  /** "(name body)" adds one of each parenthesis to those of `body` when `name` has none. */
  lemma CountWrapped(name: string, body: string)
    requires Count(name, '(') == 0 && Count(name, ')') == 0
    ensures Count("(" + name + " " + body + ")", '(') == Count(body, '(') + 1
    ensures Count("(" + name + " " + body + ")", ')') == Count(body, ')') + 1
  {
    var front := "(" + name + " ";
    CountConcat("(", name, '(');
    CountConcat("(", name, ')');
    CountConcat("(" + name, " ", '(');
    CountConcat("(" + name, " ", ')');
    CountConcat(front, body, '(');
    CountConcat(front, body, ')');
    CountConcat(front + body, ")", '(');
    CountConcat(front + body, ")", ')');
  }

  /** Joining two texts with a space adds no parenthesis. */
  lemma CountJoin(a: string, b: string)
    ensures Count(a + " " + b, '(') == Count(a, '(') + Count(b, '(')
    ensures Count(a + " " + b, ')') == Count(a, ')') + Count(b, ')')
  {
    CountConcat(a, " ", '(');
    CountConcat(a, " ", ')');
    CountConcat(a + " ", b, '(');
    CountConcat(a + " ", b, ')');
  }
}
